/**
 The handlers' methods are among the interleavings: a handler's step of Compensation, with its thread run to its end
 before anything else, leaves what the method leaves.
 */
module HandlerRuns {
  import opened Base
  import opened Orders
  import opened Saga
  import Compensation
  import Inventory
  import OrderStore
  import Payment
  import Pricing

  /** The steps of one thread, each unit succeeding as up says, run to the thread's end. */
  ghost predicate Finishes(w: Compensation.World, t: nat, up: Todo -> bool, acts: seq<Compensation.Act>)
    requires t < |w.threads|
  {
    && (forall k :: 0 <= k < |acts| ==> acts[k].Work? && acts[k].thread == t)
    && Compensation.Run(w, acts) == w.(s := Work(w.s, up, w.threads[t]), threads := w.threads[t := []])
  }

  lemma OneUnitFirst(w: Compensation.World, t: nat, up: Todo -> bool, rest: seq<Compensation.Act>)
    requires t < |w.threads| && w.threads[t] != []
    requires Finishes(Compensation.Next(w, Compensation.Act.Work(t, up(w.threads[t][0]))), t, up, rest)
    ensures Finishes(w, t, up, [Compensation.Act.Work(t, up(w.threads[t][0]))] + rest)
  {
    var unit := Compensation.Act.Work(t, up(w.threads[t][0]));
    assert ([unit] + rest)[1..] == rest;
    assert Compensation.Next(w, unit).threads[t := []] == w.threads[t := []];
  }

  lemma {:induction false} ThreadFinishes(w: Compensation.World, t: nat, up: Todo -> bool)
    requires t < |w.threads|
    ensures exists acts :: Finishes(w, t, up, acts)
    decreases Weight(w.threads[t])
  {
    if w.threads[t] == [] {
      assert w.threads[t := []] == w.threads;
      assert Finishes(w, t, up, []);
    } else {
      var n := Compensation.Next(w, Compensation.Act.Work(t, up(w.threads[t][0])));
      TurnIsLighter(w.s, w.threads[t], up(w.threads[t][0]));
      ThreadFinishes(n, t, up);
      var rest :| Finishes(n, t, up, rest);
      OneUnitFirst(w, t, up, rest);
    }
  }

  /** Some run from w ends with these services. */
  ghost predicate Reaches(w: Compensation.World, s: Services) {
    exists acts :: Compensation.Run(w, acts).s == s
  }

  lemma SpawnedFinishes(y: Compensation.World, todo: seq<Todo>, up: Todo -> bool)
    ensures Reaches(Compensation.Spawn(y, todo), Work(y.s, up, todo))
  {
    var x := Compensation.Spawn(y, todo);
    if todo == [] {
      assert Compensation.Run(x, []) == x;
    } else {
      ThreadFinishes(x, |y.threads|, up);
      var acts :| Finishes(x, |y.threads|, up, acts);
      assert Compensation.Run(x, acts).s == Work(y.s, up, todo);
    }
  }

  /** What the handler's method promises to leave. */
  ghost function MethodLeaves(w: Compensation.World, a: Compensation.Act, up: Todo -> bool): Services {
    match a
    case PaymentAuthorized(k, e) =>
      if !Compensation.IsAuthorizedEvent(w, k) then w.s
      else
        var id := w.s.pay.outbox[k].orderRef;
        Work(w.s.(db := OrderStore.Applied(w.s.db, id, e, Confirm, w.now)), up, AfterAuthorized(OrderStore.ApplyReply(w.s.db, id, e, Confirm)))
    case PaymentFailed(k, e, reason) =>
      if !Compensation.IsFailedEvent(w, k) then w.s
      else
        var id, m := w.s.pay.outbox[k].orderRef, Cancel("PAYMENT_FAILED:" + reason);
        Work(w.s.(db := OrderStore.Applied(w.s.db, id, e, m, w.now)), up, AfterFailed(OrderStore.ApplyReply(w.s.db, id, e, m), id))
    case ReservationExpired(k, e) =>
      if k >= |w.s.inv.expired| then w.s
      else
        var id, m := w.s.inv.expired[k].orderRef, CancelIfPending("RESERVATION_EXPIRED");
        Work(w.s.(db := OrderStore.Applied(w.s.db, id, e, m, w.now)), up, AfterExpired(OrderStore.ApplyReply(w.s.db, id, e, m), id))
    case CancelOrder(id) =>
      var m := Cancel("CANCELLED_BY_CUSTOMER");
      Work(w.s.(db := OrderStore.Applied(w.s.db, id, "", m, w.now)), up, AfterCancelled(OrderStore.ApplyReply(w.s.db, id, "", m), id))
    case Sweep(cutoff, limit, pending) =>
      if OrderStore.Listing(w.s.db, cutoff, limit, pending) then Work(w.s, up, SweepTodo(pending)) else w.s
    case _ => w.s
  }

  lemma HandledFinishes(w: Compensation.World, id: nat, e: string, m: Move, todo: seq<Todo>, up: Todo -> bool)
    ensures Reaches(Compensation.Handle(w, id, e, m, todo), Work(w.s.(db := OrderStore.Applied(w.s.db, id, e, m, w.now)), up, todo))
  {
    SpawnedFinishes(Compensation.With(w, w.s.(db := OrderStore.Applied(w.s.db, id, e, m, w.now))), todo, up);
  }

  lemma StandsStill(w: Compensation.World)
    ensures Reaches(w, w.s)
  {
    assert Compensation.Run(w, []) == w;
  }

  /** Each handler's step can go on to what its method leaves, whatever calls succeed. */
  lemma HandlerIsMethod(w: Compensation.World, a: Compensation.Act, up: Todo -> bool)
    requires a.PaymentAuthorized? || a.PaymentFailed? || a.ReservationExpired? || a.CancelOrder? || a.Sweep?
    ensures Reaches(Compensation.Next(w, a), MethodLeaves(w, a, up))
  {
    StandsStill(w);
    match a {
      case PaymentAuthorized(k, e) => AuthorizedIsMethod(w, k, e, up);
      case PaymentFailed(k, e, reason) => FailedIsMethod(w, k, e, reason, up);
      case ReservationExpired(k, e) => ExpiredIsMethod(w, k, e, up);
      case CancelOrder(id) =>
        var m := Cancel("CANCELLED_BY_CUSTOMER");
        HandledFinishes(w, id, "", m, AfterCancelled(OrderStore.ApplyReply(w.s.db, id, "", m), id), up);
      case Sweep(cutoff, limit, pending) => SpawnedFinishes(w, SweepTodo(pending), up);
      case _ =>
    }
  }

  lemma AuthorizedIsMethod(w: Compensation.World, k: nat, e: string, up: Todo -> bool)
    ensures Reaches(Compensation.Next(w, Compensation.PaymentAuthorized(k, e)), MethodLeaves(w, Compensation.PaymentAuthorized(k, e), up))
  {
    StandsStill(w);
    if Compensation.IsAuthorizedEvent(w, k) {
      var id := w.s.pay.outbox[k].orderRef;
      HandledFinishes(w, id, e, Confirm, AfterAuthorized(OrderStore.ApplyReply(w.s.db, id, e, Confirm)), up);
    }
  }

  lemma FailedIsMethod(w: Compensation.World, k: nat, e: string, reason: string, up: Todo -> bool)
    ensures Reaches(Compensation.Next(w, Compensation.PaymentFailed(k, e, reason)),
                    MethodLeaves(w, Compensation.PaymentFailed(k, e, reason), up))
  {
    StandsStill(w);
    if Compensation.IsFailedEvent(w, k) {
      var id, m := w.s.pay.outbox[k].orderRef, Cancel("PAYMENT_FAILED:" + reason);
      HandledFinishes(w, id, e, m, AfterFailed(OrderStore.ApplyReply(w.s.db, id, e, m), id), up);
    }
  }

  lemma ExpiredIsMethod(w: Compensation.World, k: nat, e: string, up: Todo -> bool)
    ensures Reaches(Compensation.Next(w, Compensation.ReservationExpired(k, e)), MethodLeaves(w, Compensation.ReservationExpired(k, e), up))
  {
    StandsStill(w);
    if k < |w.s.inv.expired| {
      var id, m := w.s.inv.expired[k].orderRef, CancelIfPending("RESERVATION_EXPIRED");
      HandledFinishes(w, id, e, m, AfterExpired(OrderStore.ApplyReply(w.s.db, id, e, m), id), up);
    }
  }

  // ---- a checkout --------------------------------------------------------------------------------------

  function DraftOf(in_: CreateInput, cart: seq<Pricing.Item>, q: Pricing.Quote): Compensation.Draft {
    Compensation.Draft(in_.ownerId, ReserveItems(cart), q.lines, q.subtotal, q.discount, q.tax, q.total)
  }

  lemma {:induction false} RunAppend(w: Compensation.World, a: seq<Compensation.Act>, b: seq<Compensation.Act>)
    ensures Compensation.Run(w, a + b) == Compensation.Run(Compensation.Run(w, a), b)
    decreases |a|
  {
    if a == [] {
      assert a + b == b;
    } else {
      assert (a + b)[1..] == a[1..] + b;
      RunAppend(Compensation.Next(w, a[0]), a[1..], b);
    }
  }

  lemma StepThen(w: Compensation.World, a: Compensation.Act, s: Services)
    requires Reaches(Compensation.Next(w, a), s)
    ensures Reaches(w, s)
  {
    var acts :| Compensation.Run(Compensation.Next(w, a), acts).s == s;
    assert ([a] + acts)[1..] == acts;
    assert Compensation.Run(w, [a] + acts).s == s;
  }

  /** A checkout that has begun and reserved. */
  ghost function AfterReserve(w: Compensation.World, d: Compensation.Draft): Compensation.World {
    Compensation.Next(Compensation.Next(w, Compensation.Begin(d)), Compensation.Act.Reserve(|w.placing|))
  }

  lemma BeginThenReserve(w: Compensation.World, d: Compensation.Draft)
    requires Compensation.Quoted(d) && Inventory.ReserveRefusal(w.s.inv.stock, d.items) == None
    ensures var x := AfterReserve(w, d);
            && x.s == w.s.(inv := Inventory.Reserved(w.s.inv, w.nextId, d.items, w.now + RESERVATION_TTL))
            && x.placing == w.placing + [Compensation.Placing.Reserved(w.nextId, d, |w.s.inv.reservations|)]
            && x.now == w.now && x.threads == w.threads
  {
    var b := Compensation.Next(w, Compensation.Begin(d));
    assert b.placing[|w.placing|] == Compensation.Started(w.nextId, d);
  }

  lemma ReachesReserved(w: Compensation.World, d: Compensation.Draft, s: Services)
    requires Reaches(AfterReserve(w, d), s)
    ensures Reaches(w, s)
  {
    var b := Compensation.Next(w, Compensation.Begin(d));
    StepThen(b, Compensation.Act.Reserve(|w.placing|), s);
    StepThen(w, Compensation.Begin(d), s);
  }

  lemma ThenOpen(x: Compensation.World, c: nat, id: nat, d: Compensation.Draft, r: nat)
    requires c < |x.placing| && x.placing[c] == Compensation.Placing.Reserved(id, d, r) && d.total > 0
    ensures var y := Compensation.Next(x, Compensation.Act.Open(c));
            && y.s == x.s.(pay := Payment.Created(x.s.pay, id, d.total)) && y.now == x.now
            && |y.placing| == |x.placing| && y.placing[c] == Compensation.Opened(id, d, r, |x.s.pay.intents|)
  {
  }

  lemma ThenInsert(y: Compensation.World, c: nat, id: nat, d: Compensation.Draft, r: nat, i: nat)
    requires c < |y.placing| && y.placing[c] == Compensation.Opened(id, d, r, i)
    ensures Compensation.Next(y, Compensation.Act.Insert(c)).s ==
            y.s.(db := OrderStore.InsertedOrder(y.s.db, id, Compensation.OrderOf(d, i, r, y.now)))
  {
  }

  /** From a reserved checkout on: the payment is opened, and the order inserted. */
  lemma OpenThenInsert(x: Compensation.World, c: nat, id: nat, d: Compensation.Draft, r: nat)
    requires c < |x.placing| && x.placing[c] == Compensation.Placing.Reserved(id, d, r) && d.total > 0
    ensures Reaches(x, Services(OrderStore.InsertedOrder(x.s.db, id, Compensation.OrderOf(d, |x.s.pay.intents|, r, x.now)),
                                x.s.inv, Payment.Created(x.s.pay, id, d.total)))
  {
    ThenOpen(x, c, id, d, r);
    var y := Compensation.Next(x, Compensation.Act.Open(c));
    ThenInsert(y, c, id, d, r, |x.s.pay.intents|);
    var z := Compensation.Next(y, Compensation.Act.Insert(c));
    StandsStill(z);
    StepThen(y, Compensation.Act.Insert(c), z.s);
    StepThen(x, Compensation.Act.Open(c), z.s);
  }

  lemma DraftQuoted(in_: CreateInput, env: Env, q: Pricing.Quote, i: nat, r: nat)
    requires env.cart.Some? && WellPriced(NewOrder(in_, q, i, r, env.now))
    ensures Compensation.Quoted(DraftOf(in_, env.cart.value, q))
  {
  }

  /** What a checkout of a draft leaves: its order, its reservation and its payment. */
  ghost predicate PlacedAs(s: Services, t: Services, d: Compensation.Draft, orderId: nat, now: int) {
    && d.total > 0 && Inventory.ReserveRefusal(s.inv.stock, d.items) == None
    && t == Services(OrderStore.InsertedOrder(s.db, orderId, Compensation.OrderOf(d, |s.pay.intents|, |s.inv.reservations|, now)),
                     Inventory.Reserved(s.inv, orderId, d.items, now + RESERVATION_TTL),
                     Payment.Created(s.pay, orderId, d.total))
  }

  lemma PlacedState(s: Services, t: Services, in_: CreateInput, currency: string, env: Env, q: Pricing.Quote)
    requires WentThrough(s, t, in_, currency, env, q)
    ensures PlacedAs(s, t, DraftOf(in_, env.cart.value, q), env.orderId, env.now)
  {
  }

  lemma PlacedSteps(w: Compensation.World, t: Services, d: Compensation.Draft)
    requires Compensation.Quoted(d) && PlacedAs(w.s, t, d, w.nextId, w.now)
    ensures Reaches(w, t)
  {
    BeginThenReserve(w, d);
    OpenThenInsert(AfterReserve(w, d), |w.placing|, w.nextId, d, |w.s.inv.reservations|);
    ReachesReserved(w, d, t);
  }

  /** A checkout that went through is four steps of the interleaved saga with nothing in between. */
  lemma PlacedIsRun(w: Compensation.World, t: Services, in_: CreateInput, currency: string, env: Env, q: Pricing.Quote)
    requires WentThrough(w.s, t, in_, currency, env, q) && env.orderId == w.nextId && env.now == w.now
    requires WellPriced(NewOrder(in_, q, |w.s.pay.intents|, |w.s.inv.reservations|, env.now))
    ensures Reaches(w, t)
  {
    PlacedState(w.s, t, in_, currency, env, q);
    DraftQuoted(in_, env, q, |w.s.pay.intents|, |w.s.inv.reservations|);
    PlacedSteps(w, t, DraftOf(in_, env.cart.value, q));
  }

  lemma AbandonFinishes(x: Compensation.World, c: nat, up: Todo -> bool)
    requires c < |x.placing|
    ensures Reaches(x, Work(x.s, up, Compensation.Undoing(x.placing[c])))
  {
    var todo := Compensation.Undoing(x.placing[c]);
    SpawnedFinishes(x.(placing := x.placing[c := Compensation.Gone]), todo, up);
    StepThen(x, Compensation.Abandon(c), Work(x.s, up, todo));
  }

  /** So is one that failed: it begins, reserves, perhaps opens its payment, and gives up. */
  lemma FailedIsRun(w: Compensation.World, t: Services, env: Env, up: Todo -> bool)
    requires FellThrough(w.s, t, env, up) && env.orderId == w.nextId && env.now == w.now
    ensures Reaches(w, t)
  {
    if t == w.s {
      StandsStill(w);
    } else {
      var items := ReserveItems(env.cart.value);
      if t == Work(Held(w.s, env.cart.value, env), up, [Release(|w.s.inv.reservations|, None)]) {
        var d := Compensation.Draft("", items, [], 0, 0, 0, 0);
        BeginThenReserve(w, d);
        AbandonFinishes(AfterReserve(w, d), |w.placing|, up);
        ReachesReserved(w, d, t);
      } else {
        var cents :| cents > 0 && t == AfterLostInsert(w.s, env, up, cents);
        LostInsertIsRun(w, t, env, up, cents);
      }
    }
  }

  lemma LostInsertIsRun(w: Compensation.World, t: Services, env: Env, up: Todo -> bool, cents: int)
    requires env.cart.Some? && env.orderId == w.nextId && env.now == w.now
    requires Inventory.ReserveRefusal(w.s.inv.stock, ReserveItems(env.cart.value)) == None
    requires cents > 0 && t == AfterLostInsert(w.s, env, up, cents)
    ensures Reaches(w, t)
  {
    var d := Compensation.Draft("", ReserveItems(env.cart.value), [], 0, 0, 0, cents);
    var c, r := |w.placing|, |w.s.inv.reservations|;
    BeginThenReserve(w, d);
    var x := AfterReserve(w, d);
    ThenOpen(x, c, w.nextId, d, r);
    AbandonFinishes(Compensation.Next(x, Compensation.Act.Open(c)), c, up);
    StepThen(x, Compensation.Act.Open(c), t);
    ReachesReserved(w, d, t);
  }
}
