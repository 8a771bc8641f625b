/** When an order becomes FULFILLED, over every order in which deliveries and other events arrive. */
module Fulfilment {
  import opened Base
  import opened Orders
  import opened OrderStore
  import Groups

  /** What reaches the order service: a delivered shipment, or a mutation by another handler. */
  datatype Event =
    | Shipment(id: nat, shop: string, eventId: string, now: int)
    | Mutation(id: nat, move: Move, eventId: string, now: int)

  ghost function Next(db: Db, e: Event): Db {
    match e
    case Shipment(id, shop, eventId, now) => Delivered(db, id, shop, eventId, now)
    case Mutation(id, move, eventId, now) => Applied(db, id, eventId, move, now)
  }

  ghost function Run(db: Db, es: seq<Event>): Db
    decreases |es|
  {
    if es == [] then db else Run(Next(db, es[0]), es[1..])
  }

  lemma {:induction false} RunAppend(db: Db, a: seq<Event>, b: seq<Event>)
    ensures Run(db, a + b) == Run(Run(db, a), b)
    decreases |a|
  {
    if a == [] {
      assert a + b == b;
    } else {
      assert (a + b)[1..] == a[1..] + b;
      RunAppend(Next(db, a[0]), a[1..], b);
    }
  }

  /** Only ApplyShipmentDelivered fulfils. */
  predicate Allowed(es: seq<Event>) {
    forall i :: 0 <= i < |es| && es[i].Mutation? ==> es[i].move != Fulfill
  }

  predicate Cancels(e: Event, id: nat) {
    e.Mutation? && e.id == id && e.move.Cancel?
  }

  /** Whether a delivery of the order is processed, and not skipped as a record seen before. */
  predicate Takes(db: Db, e: Event, id: nat) {
    e.Shipment? && e.id == id && !Seen(db, e.eventId)
  }

  ghost predicate Processed(db: Db, es: seq<Event>, id: nat)
    decreases |es|
  {
    es != [] && (Takes(db, es[0], id) || Processed(Next(db, es[0]), es[1..], id))
  }

  // ---- one event ------------------------------------------------------------------------------

  /** A confirmed order moves on a processed delivery that covers its groups, or on a cancellation; others stay. */
  lemma StepDecides(db: Db, e: Event, id: nat)
    requires id in db.orders && db.orders[id].status != PendingPayment && !(e.Mutation? && e.move == Fulfill)
    ensures id in Next(db, e).orders && Next(db, e).orders[id].lines == db.orders[id].lines
    ensures db.deliveries <= Next(db, e).deliveries
    ensures !Takes(db, e, id) ==> forall shop :: (id, shop) in Next(db, e).deliveries <==> (id, shop) in db.deliveries
    ensures db.orders[id].status in {Cancelled, Fulfilled} ==> Next(db, e).orders[id].status == db.orders[id].status
    ensures db.orders[id].status == Confirmed && !Cancels(e, id) ==>
              Next(db, e).orders[id].status ==
              if Takes(db, e, id) && AllDelivered(Next(db, e).deliveries, id, db.orders[id]) then Fulfilled else Confirmed
  {
  }

  /** CANCELLED and FULFILLED stay, deliveries stay, and without a processed delivery none is added. */
  lemma {:induction false} RunKeeps(db: Db, es: seq<Event>, id: nat)
    requires id in db.orders && db.orders[id].status != PendingPayment && Allowed(es)
    ensures id in Run(db, es).orders && Run(db, es).orders[id].status != PendingPayment
    ensures Run(db, es).orders[id].lines == db.orders[id].lines
    ensures db.orders[id].status in {Cancelled, Fulfilled} ==> Run(db, es).orders[id].status == db.orders[id].status
    ensures db.deliveries <= Run(db, es).deliveries
    ensures !Processed(db, es, id) ==> forall shop :: (id, shop) in Run(db, es).deliveries <==> (id, shop) in db.deliveries
    decreases |es|
  {
    if es != [] {
      StepMoves(db, es, id);
      RunKeeps(Next(db, es[0]), es[1..], id);
    }
  }

  lemma StepMoves(db: Db, es: seq<Event>, id: nat)
    requires es != [] && id in db.orders && db.orders[id].status != PendingPayment && Allowed(es)
    ensures id in Next(db, es[0]).orders && Next(db, es[0]).orders[id].status != PendingPayment
    ensures Next(db, es[0]).orders[id].lines == db.orders[id].lines
    ensures db.orders[id].status in {Cancelled, Fulfilled} ==> Next(db, es[0]).orders[id].status == db.orders[id].status
    ensures db.deliveries <= Next(db, es[0]).deliveries
    ensures !Takes(db, es[0], id) ==> forall shop :: (id, shop) in Next(db, es[0]).deliveries <==> (id, shop) in db.deliveries
  {
    assert es[0] == es[..1][0];
    StepDecides(db, es[0], id);
  }

  // ---- every run --------------------------------------------------------------------------------

  /**
   A confirmed order that nothing cancels is FULFILLED exactly when every one of its shop groups has delivered and
   one of its deliveries was processed since, whatever else arrived, in whatever order, however often. While a group
   was still missing when it was confirmed, the second half goes without saying.
   */
  lemma {:induction false} FulfilledExactly(db: Db, es: seq<Event>, id: nat)
    requires id in db.orders && db.orders[id].status == Confirmed
    requires Allowed(es) && forall i :: 0 <= i < |es| ==> !Cancels(es[i], id)
    ensures id in Run(db, es).orders
    ensures Run(db, es).orders[id].status ==
            if AllDelivered(Run(db, es).deliveries, id, db.orders[id]) && Processed(db, es, id) then Fulfilled else Confirmed
    ensures !AllDelivered(db.deliveries, id, db.orders[id]) && AllDelivered(Run(db, es).deliveries, id, db.orders[id]) ==>
              Processed(db, es, id)
    decreases |es|
  {
    RunKeeps(db, es, id);
    if es != [] {
      var n := Next(db, es[0]);
      assert !Cancels(es[0], id) && es[0] == es[..1][0];
      StepDecides(db, es[0], id);
      RunKeeps(n, es[1..], id);
      if n.orders[id].status == Confirmed {
        FulfilledExactly(n, es[1..], id);
      }
    }
  }

  /** The first cancellation wins exactly when the order was not fulfilled before it. */
  lemma CancellationRace(db: Db, before: seq<Event>, reason: string, now: int, after: seq<Event>, id: nat)
    requires id in db.orders && db.orders[id].status == Confirmed
    requires Allowed(before) && Allowed(after) && forall i :: 0 <= i < |before| ==> !Cancels(before[i], id)
    ensures var final := Run(db, before + [Mutation(id, Cancel(reason), "", now)] + after);
            && id in final.orders
            && final.orders[id].status ==
               if AllDelivered(Run(db, before).deliveries, id, db.orders[id]) && Processed(db, before, id) then Fulfilled
               else Cancelled
  {
    var cancel := Mutation(id, Cancel(reason), "", now);
    FulfilledExactly(db, before, id);
    var mid := Run(db, before);
    RunAppend(db, before, [cancel]);
    assert [cancel][1..] == [];
    assert Run(mid, [cancel]) == Next(mid, cancel);
    RunAppend(db, before + [cancel], after);
    RunKeeps(Next(mid, cancel), after, id);
  }

  /**
   When every group delivers before the payment is confirmed, the confirmation does not fulfil the order: it waits
   for one more delivery record.
   */
  lemma EarlyDeliveryWaits(o: Order, shop: string)
    requires o.status == PendingPayment && forall s :: Groups.HasShop(o.lines, s) ==> s == shop
    ensures var final := Run(Db(map[0 := o], {}, {}, []), [Shipment(0, shop, "a", 0), Mutation(0, Confirm, "b", 0)]);
            && 0 in final.orders && final.orders[0].status == Confirmed
            && AllDelivered(final.deliveries, 0, final.orders[0])
  {
    var db := Db(map[0 := o], {}, {}, []);
    var ship, confirm := Shipment(0, shop, "a", 0), Mutation(0, Confirm, "b", 0);
    assert [ship, confirm][1..] == [confirm] && [confirm][1..] == [];
    assert Run(Next(db, ship), [confirm]) == Next(Next(db, ship), confirm);
  }

  // ---- what the deliveries table holds ------------------------------------------------------

  /** Two deliveries of one record say the same thing. */
  predicate SameShipment(a: Event, b: Event) {
    if a.Shipment? && b.Shipment? then a.id == b.id && a.shop == b.shop else !a.Shipment? && !b.Shipment?
  }

  /** Event ids name records: a processed shipment left its row, and equal ids mean equal records. */
  ghost predicate Honest(db: Db, es: seq<Event>) {
    && (forall i :: 0 <= i < |es| && es[i].Shipment? && Seen(db, es[i].eventId) ==> (es[i].id, es[i].shop) in db.deliveries)
    && (forall i, j :: 0 <= i < j < |es| && es[i].eventId == es[j].eventId && es[i].eventId != "" ==> SameShipment(es[i], es[j]))
  }

  predicate Ships(es: seq<Event>, id: nat, shop: string) {
    exists i :: 0 <= i < |es| && es[i].Shipment? && es[i].id == id && es[i].shop == shop
  }

  lemma HonestStep(db: Db, es: seq<Event>)
    requires es != [] && Honest(db, es)
    ensures Honest(Next(db, es[0]), es[1..])
  {
    var n, rest := Next(db, es[0]), es[1..];
    forall i | 0 <= i < |rest| && rest[i].Shipment? && Seen(n, rest[i].eventId) ensures (rest[i].id, rest[i].shop) in n.deliveries {
      assert rest[i] == es[i + 1];
      if !Seen(db, rest[i].eventId) {
        assert rest[i].eventId == es[0].eventId;
        assert SameShipment(es[0], es[i + 1]);
      }
    }
    forall i, j | 0 <= i < j < |rest| && rest[i].eventId == rest[j].eventId && rest[i].eventId != ""
      ensures SameShipment(rest[i], rest[j])
    {
      assert rest[i] == es[i + 1] && rest[j] == es[j + 1];
    }
  }

  /** A delivery row is there exactly when it was before or its shipment was among the events. */
  lemma {:induction false} DeliveriesAre(db: Db, es: seq<Event>, id: nat, shop: string)
    requires Honest(db, es) && id in db.orders
    ensures (id, shop) in Run(db, es).deliveries <==> (id, shop) in db.deliveries || Ships(es, id, shop)
    decreases |es|
  {
    if es != [] {
      var n := Next(db, es[0]);
      HonestStep(db, es);
      assert id in n.orders;
      DeliveriesAre(n, es[1..], id, shop);
      if Ships(es[1..], id, shop) {
        var i :| 0 <= i < |es[1..]| && es[1..][i].Shipment? && es[1..][i].id == id && es[1..][i].shop == shop;
        assert es[i + 1] == es[1..][i];
      }
      if Ships(es, id, shop) {
        var i :| 0 <= i < |es| && es[i].Shipment? && es[i].id == id && es[i].shop == shop;
        assert i > 0 ==> es[1..][i - 1] == es[i];
      }
    }
  }

  /** Whether the events bring a delivery of the order in a record not processed before. */
  predicate BringsNew(db: Db, es: seq<Event>, id: nat) {
    exists i :: 0 <= i < |es| && Takes(db, es[i], id)
  }

  /** A record is processed the first time it arrives, so a new one is processed. */
  lemma {:induction false} NewIsProcessed(db: Db, es: seq<Event>, id: nat)
    requires Honest(db, es) && id in db.orders
    ensures Processed(db, es, id) <==> BringsNew(db, es, id)
    decreases |es|
  {
    if es != [] && !Takes(db, es[0], id) {
      var n := Next(db, es[0]);
      HonestStep(db, es);
      assert id in n.orders;
      NewIsProcessed(n, es[1..], id);
      if BringsNew(db, es, id) {
        var i :| 0 <= i < |es| && Takes(db, es[i], id);
        StillNew(db, es, i, id);
        assert es[1..][i - 1] == es[i];
      }
      if BringsNew(n, es[1..], id) {
        var i :| 0 <= i < |es[1..]| && Takes(n, es[1..][i], id);
        assert Takes(db, es[i + 1], id);
      }
    }
  }

  lemma StillNew(db: Db, es: seq<Event>, i: nat, id: nat)
    requires es != [] && Honest(db, es) && i < |es| && Takes(db, es[i], id) && !Takes(db, es[0], id) && id in db.orders
    ensures i > 0 && Takes(Next(db, es[0]), es[i], id)
  {
    assert i > 0 && es[0].eventId == es[i].eventId && es[i].eventId != "" ==> SameShipment(es[0], es[i]);
  }

  /** Two histories that carry the same shipments of an order leave it in the same status. */
  lemma ArrivalOrderIrrelevant(db: Db, xs: seq<Event>, ys: seq<Event>, id: nat)
    requires id in db.orders && db.orders[id].status == Confirmed
    requires Allowed(xs) && Allowed(ys) && Honest(db, xs) && Honest(db, ys)
    requires forall i :: 0 <= i < |xs| ==> !Cancels(xs[i], id)
    requires forall i :: 0 <= i < |ys| ==> !Cancels(ys[i], id)
    requires forall shop :: Groups.HasShop(db.orders[id].lines, shop) ==> (Ships(xs, id, shop) <==> Ships(ys, id, shop))
    requires AllDelivered(db.deliveries, id, db.orders[id]) ==> (BringsNew(db, xs, id) <==> BringsNew(db, ys, id))
    ensures id in Run(db, xs).orders && id in Run(db, ys).orders
    ensures Run(db, xs).orders[id].status == Run(db, ys).orders[id].status
  {
    FulfilledExactly(db, xs, id);
    FulfilledExactly(db, ys, id);
    NewIsProcessed(db, xs, id);
    NewIsProcessed(db, ys, id);
    forall shop | Groups.HasShop(db.orders[id].lines, shop)
      ensures (id, shop) in Run(db, xs).deliveries <==> (id, shop) in Run(db, ys).deliveries
    {
      DeliveriesAre(db, xs, id, shop);
      DeliveriesAre(db, ys, id, shop);
    }
  }
}
