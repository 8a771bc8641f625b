/** The payout service: each shop's share of a confirmed order, paid out once. */
module Payout {
  import opened Base
  import opened Money
  import opened Pricing
  import Groups
  import Sorting

  datatype ShopAmount = ShopAmount(shopId: string, amount: Money)

  datatype Status = Pending | Paid

  datatype PayoutRow = PayoutRow(orderId: nat, shopId: string, currency: string, cents: int, status: Status)

  datatype Event = CreatedEvent(payout: nat, cents: int) | PaidEvent(payout: nat)

  /** Payout ids are positions in the append-only payouts table. */
  datatype Book = Book(rows: seq<PayoutRow>, processed: set<string>, outbox: seq<Event>)

  const EMPTY := Book([], {}, [])

  // ---- splitting an order by shop --------------------------------------------------

  /** What the shop's lines come to. */
  function ShopTotal(ls: seq<Line>, shop: string): int {
    if ls == [] then 0
    else ShopTotal(ls[..|ls| - 1], shop) + (if ls[|ls| - 1].shopId == shop then ls[|ls| - 1].lineTotal else 0)
  }

  /** The zero value takes the other's currency. */
  function Plus(a: Money, b: Money): Money {
    Money(if a.currency == "" then b.currency else a.currency, a.cents + b.cents)
  }

  /** One group a shop, in the order shops first appear, each holding exactly its lines' total. */
  ghost predicate Splits(gs: seq<ShopAmount>, currency: string, ls: seq<Line>) {
    && (forall i, j :: 0 <= i < j < |gs| ==> gs[i].shopId != gs[j].shopId)
    && (forall k :: 0 <= k < |gs| ==>
          Groups.HasShop(ls, gs[k].shopId) && gs[k].amount == Money(currency, ShopTotal(ls, gs[k].shopId)))
    && (forall shop :: Groups.HasShop(ls, shop) ==> exists k :: 0 <= k < |gs| && gs[k].shopId == shop)
  }

  /** The event carries each line total in wire form. */
  method GroupsFrom(currency: string, lines: seq<Line>) returns (groups: seq<ShopAmount>)
    ensures Splits(groups, currency, lines)
  {
    var byShop: map<string, Money> := map[];
    var order: seq<string> := [];
    var i := 0;
    while i < |lines|
      invariant 0 <= i <= |lines|
      invariant Sorting.Distinct(order) && forall shop :: shop in order <==> shop in byShop
      invariant forall shop :: shop in byShop <==> Groups.HasShop(lines[..i], shop)
      invariant forall shop :: shop in byShop ==> byShop[shop] == Money(currency, ShopTotal(lines[..i], shop))
    {
      var l := lines[i];
      Groups.HasShopPush(lines, i);
      assert lines[..i + 1][..i] == lines[..i];
      if l.shopId !in byShop {
        NothingOfAbsentShop(lines[..i], l.shopId);
        assert l.shopId !in order;
        order := order + [l.shopId];
      }
      var sent := Money(currency, l.lineTotal);
      WireRoundTrip(sent);
      byShop := byShop[l.shopId := Plus(if l.shopId in byShop then byShop[l.shopId] else Money("", 0),
                                        FromUnitsNanos(currency, Units(sent), Nanos(sent)))];
      i := i + 1;
    }
    assert lines[..i] == lines;
    groups := [];
    var k := 0;
    while k < |order|
      invariant 0 <= k <= |order| && |groups| == k
      invariant forall j :: 0 <= j < k ==> order[j] in byShop && groups[j] == ShopAmount(order[j], byShop[order[j]])
    {
      assert order[k] in order;
      groups := groups + [ShopAmount(order[k], byShop[order[k]])];
      k := k + 1;
    }
    forall shop | Groups.HasShop(lines, shop) ensures exists k :: 0 <= k < |groups| && groups[k].shopId == shop {
      assert shop in order;
      var j :| 0 <= j < |order| && order[j] == shop;
      assert groups[j].shopId == shop;
    }
  }

  lemma {:induction false} NothingOfAbsentShop(ls: seq<Line>, shop: string)
    requires !Groups.HasShop(ls, shop)
    ensures ShopTotal(ls, shop) == 0
  {
    if ls != [] {
      var n := |ls| - 1;
      Groups.HasShopPush(ls, n);
      assert ls[..n + 1] == ls;
      NothingOfAbsentShop(ls[..n], shop);
    }
  }

  // ---- the transactions ------------------------------------------------------------------

  predicate HasPayout(rows: seq<PayoutRow>, orderId: nat, shop: string) {
    exists i :: 0 <= i < |rows| && rows[i].orderId == orderId && rows[i].shopId == shop
  }

  /** One group's insert: nothing for a first-party group or for a shop already paid out. */
  function GroupAdded(b: Book, orderId: nat, g: ShopAmount): Book {
    if g.shopId == "" || HasPayout(b.rows, orderId, g.shopId) then b
    else b.(rows := b.rows + [PayoutRow(orderId, g.shopId, g.amount.currency, g.amount.cents, Pending)],
            outbox := b.outbox + [CreatedEvent(|b.rows|, g.amount.cents)])
  }

  function GroupsAdded(b: Book, orderId: nat, gs: seq<ShopAmount>): Book {
    if gs == [] then b else GroupAdded(GroupsAdded(b, orderId, gs[..|gs| - 1]), orderId, gs[|gs| - 1])
  }

  predicate Seen(b: Book, eventId: string) {
    eventId != "" && eventId in b.processed
  }

  function Created(b: Book, orderId: nat, gs: seq<ShopAmount>, eventId: string): Book {
    if Seen(b, eventId) then b
    else GroupsAdded(if eventId == "" then b else b.(processed := b.processed + {eventId}), orderId, gs)
  }

  function MarkedPaid(b: Book, id: nat): Book {
    if id >= |b.rows| || b.rows[id].status == Paid then b
    else b.(rows := b.rows[id := b.rows[id].(status := Paid)], outbox := b.outbox + [PaidEvent(id)])
  }

  class PayoutStore {
    var rows: seq<PayoutRow>
    var processed: set<string>
    var outbox: seq<Event>

    function State(): Book
      reads this
    {
      Book(rows, processed, outbox)
    }

    constructor ()
      ensures State() == EMPTY
    {
      rows, processed, outbox := [], {}, [];
    }

    /** Inserts one payout a shop, skipping those already there, once per event id. */
    method CreateFromOrder(orderId: nat, groups: seq<ShopAmount>, eventId: string) returns (created: seq<nat>)
      modifies this
      ensures State() == Created(old(State()), orderId, groups, eventId)
      ensures |rows| >= |old(rows)|
      ensures created == seq(|rows| - |old(rows)|, i => |old(rows)| + i)
      ensures eventId != "" && eventId in old(processed) ==> State() == old(State())
      ensures processed == old(processed) + (if eventId == "" then {} else {eventId})
    {
      created := [];
      if eventId != "" {
        if eventId in processed {
          return;
        }
        processed := processed + {eventId};
      }
      ghost var start := State();
      var k := 0;
      while k < |groups|
        invariant 0 <= k <= |groups|
        invariant State() == GroupsAdded(start, orderId, groups[..k])
        invariant processed == start.processed
        invariant |rows| >= |old(rows)| && created == seq(|rows| - |old(rows)|, i => |old(rows)| + i)
      {
        assert groups[..k + 1][..k] == groups[..k];
        var g := groups[k];
        k := k + 1;
        if g.shopId == "" {
          continue;
        }
        if exists i :: 0 <= i < |rows| && rows[i].orderId == orderId && rows[i].shopId == g.shopId {
          continue;
        }
        var id := |rows|;
        rows := rows + [PayoutRow(orderId, g.shopId, g.amount.currency, g.amount.cents, Pending)];
        outbox := outbox + [CreatedEvent(id, g.amount.cents)];
        created := created + [id];
      }
      assert groups[..k] == groups;
    }

    method MarkPaid(id: nat) returns (found: bool)
      modifies this
      ensures State() == MarkedPaid(old(State()), id)
      ensures found <==> id < |old(rows)|
      ensures found ==> rows == old(rows)[id := old(rows)[id].(status := Paid)]
      ensures outbox == old(outbox) + (if found && old(rows)[id].status != Paid then [PaidEvent(id)] else [])
      ensures processed == old(processed) && (!found ==> rows == old(rows))
    {
      if id >= |rows| {
        return false;
      }
      if rows[id].status == Paid {
        return true;
      }
      rows := rows[id := rows[id].(status := Paid)];
      outbox := outbox + [PaidEvent(id)];
      found := true;
    }
  }

  // ---- runs -----------------------------------------------------------------------------------

  /** order.confirmed arrives, as often as it likes and under any event id; or a payout is settled. */
  datatype Op = Confirmed(orderId: nat, groups: seq<ShopAmount>, eventId: string) | Settle(id: nat)

  function Next(b: Book, op: Op): Book {
    match op
    case Confirmed(orderId, gs, eventId) => Created(b, orderId, gs, eventId)
    case Settle(id) => MarkedPaid(b, id)
  }

  function Run(b: Book, ops: seq<Op>): Book
    decreases |ops|
  {
    if ops == [] then b else Run(Next(b, ops[0]), ops[1..])
  }

  /** What was ordered, and in which currency; every confirmation of an order carries the same. */
  datatype Ordered = Ordered(currency: string, lines: seq<Line>)

  type Catalogue = map<nat, Ordered>

  ghost predicate Faithful(op: Op, orders: Catalogue) {
    op.Confirmed? ==> op.orderId in orders && Splits(op.groups, orders[op.orderId].currency, orders[op.orderId].lines)
  }

  function Creations(es: seq<Event>, id: nat): nat {
    if es == [] then 0
    else Creations(es[..|es| - 1], id) + (if es[|es| - 1].CreatedEvent? && es[|es| - 1].payout == id then 1 else 0)
  }

  function Settlements(es: seq<Event>, id: nat): nat {
    if es == [] then 0
    else Settlements(es[..|es| - 1], id) + (if es[|es| - 1] == PaidEvent(id) then 1 else 0)
  }

  ghost predicate RowOk(r: PayoutRow, orders: Catalogue) {
    && r.shopId != "" && r.orderId in orders && Groups.HasShop(orders[r.orderId].lines, r.shopId)
    && r.currency == orders[r.orderId].currency && r.cents == ShopTotal(orders[r.orderId].lines, r.shopId)
  }

  /** Each row has its one created event, and one paid event exactly if it is paid. */
  ghost predicate EventsOk(b: Book) {
    forall id: nat :: (id < |b.rows| ==> Creations(b.outbox, id) == 1
                                         && Settlements(b.outbox, id) == (if b.rows[id].status == Paid then 1 else 0))
                      && (id >= |b.rows| ==> Creations(b.outbox, id) == 0 && Settlements(b.outbox, id) == 0)
  }

  /** A created event carries its row's amount. */
  ghost predicate AmountsOk(b: Book) {
    forall k :: 0 <= k < |b.outbox| && b.outbox[k].CreatedEvent? ==>
      b.outbox[k].payout < |b.rows| && b.outbox[k].cents == b.rows[b.outbox[k].payout].cents
  }

  ghost predicate Inv(b: Book, orders: Catalogue) {
    && (forall i, j :: 0 <= i < j < |b.rows| ==> b.rows[i].orderId != b.rows[j].orderId || b.rows[i].shopId != b.rows[j].shopId)
    && (forall i :: 0 <= i < |b.rows| ==> RowOk(b.rows[i], orders))
    && EventsOk(b) && AmountsOk(b)
  }

  lemma EventsPush(es: seq<Event>, e: Event, id: nat)
    ensures Creations(es + [e], id) == Creations(es, id) + (if e.CreatedEvent? && e.payout == id then 1 else 0)
    ensures Settlements(es + [e], id) == Settlements(es, id) + (if e == PaidEvent(id) then 1 else 0)
  {
    assert (es + [e])[..|es|] == es;
  }

  lemma GroupKeepsInv(b: Book, orderId: nat, g: ShopAmount, orders: Catalogue)
    requires Inv(b, orders) && orderId in orders && Groups.HasShop(orders[orderId].lines, g.shopId)
    requires g.amount == Money(orders[orderId].currency, ShopTotal(orders[orderId].lines, g.shopId))
    ensures Inv(GroupAdded(b, orderId, g), orders)
    ensures g.shopId != "" ==> HasPayout(GroupAdded(b, orderId, g).rows, orderId, g.shopId)
    ensures forall o: nat, shop :: HasPayout(b.rows, o, shop) ==> HasPayout(GroupAdded(b, orderId, g).rows, o, shop)
  {
    var c := GroupAdded(b, orderId, g);
    if c != b {
      forall id: nat
        ensures Creations(c.outbox, id) == Creations(b.outbox, id) + (if id == |b.rows| then 1 else 0)
        ensures Settlements(c.outbox, id) == Settlements(b.outbox, id)
      {
        EventsPush(b.outbox, CreatedEvent(|b.rows|, g.amount.cents), id);
      }
      assert c.rows[|b.rows|].orderId == orderId && c.rows[|b.rows|].shopId == g.shopId;
    }
    RowsGrow(b.rows, c.rows);
  }

  lemma RowsGrow(a: seq<PayoutRow>, b: seq<PayoutRow>)
    requires |a| <= |b| && forall i :: 0 <= i < |a| ==> b[i].orderId == a[i].orderId && b[i].shopId == a[i].shopId
    ensures forall o: nat, shop :: HasPayout(a, o, shop) ==> HasPayout(b, o, shop)
  {
    forall o: nat, shop | HasPayout(a, o, shop) ensures HasPayout(b, o, shop) {
      var i :| 0 <= i < |a| && a[i].orderId == o && a[i].shopId == shop;
      assert b[i].orderId == o && b[i].shopId == shop;
    }
  }

  lemma {:induction false} GroupsKeepInv(b: Book, orderId: nat, gs: seq<ShopAmount>, orders: Catalogue)
    requires Inv(b, orders) && orderId in orders
    requires forall k :: 0 <= k < |gs| ==>
               && Groups.HasShop(orders[orderId].lines, gs[k].shopId)
               && gs[k].amount == Money(orders[orderId].currency, ShopTotal(orders[orderId].lines, gs[k].shopId))
    ensures Inv(GroupsAdded(b, orderId, gs), orders)
    ensures forall k :: 0 <= k < |gs| && gs[k].shopId != "" ==> HasPayout(GroupsAdded(b, orderId, gs).rows, orderId, gs[k].shopId)
    ensures forall o: nat, shop :: HasPayout(b.rows, o, shop) ==> HasPayout(GroupsAdded(b, orderId, gs).rows, o, shop)
  {
    if gs != [] {
      var n := |gs| - 1;
      GroupsKeepInv(b, orderId, gs[..n], orders);
      GroupKeepsInv(GroupsAdded(b, orderId, gs[..n]), orderId, gs[n], orders);
      forall k | 0 <= k < |gs| && gs[k].shopId != "" ensures HasPayout(GroupsAdded(b, orderId, gs).rows, orderId, gs[k].shopId) {
        if k < n {
          assert gs[..n][k] == gs[k];
        }
      }
    }
  }

  /** Every shop of the order but the platform itself has its payout. */
  ghost predicate PaidOutInFull(b: Book, orderId: nat, ls: seq<Line>) {
    forall shop :: shop != "" && Groups.HasShop(ls, shop) ==> HasPayout(b.rows, orderId, shop)
  }

  lemma StepKeepsInv(b: Book, op: Op, orders: Catalogue)
    requires Inv(b, orders) && Faithful(op, orders)
    ensures Inv(Next(b, op), orders)
    ensures forall o: nat, shop :: HasPayout(b.rows, o, shop) ==> HasPayout(Next(b, op).rows, o, shop)
    ensures op.Confirmed? && !Seen(b, op.eventId) ==> PaidOutInFull(Next(b, op), op.orderId, orders[op.orderId].lines)
  {
    match op {
      case Confirmed(orderId, gs, eventId) =>
        if !Seen(b, eventId) {
          var noted := if eventId == "" then b else b.(processed := b.processed + {eventId});
          GroupsKeepInv(noted, orderId, gs, orders);
          forall shop | shop != "" && Groups.HasShop(orders[orderId].lines, shop) ensures HasPayout(Next(b, op).rows, orderId, shop) {
            var k :| 0 <= k < |gs| && gs[k].shopId == shop;
          }
        }
      case Settle(id) =>
        RowsGrow(b.rows, Next(b, op).rows);
        if Next(b, op) != b {
          forall k: nat
            ensures Creations(Next(b, op).outbox, k) == Creations(b.outbox, k)
            ensures Settlements(Next(b, op).outbox, k) == Settlements(b.outbox, k) + (if k == id then 1 else 0)
          {
            EventsPush(b.outbox, PaidEvent(id), k);
          }
        }
    }
  }

  /**
   Over any redelivery or republication: at most one payout a shop and order, each of exactly the shop's total,
   with one created event and at most one paid event.
   */
  lemma {:induction false} RunKeepsInv(b: Book, ops: seq<Op>, orders: Catalogue)
    requires Inv(b, orders) && forall k :: 0 <= k < |ops| ==> Faithful(ops[k], orders)
    ensures Inv(Run(b, ops), orders)
    ensures forall o: nat, shop :: HasPayout(b.rows, o, shop) ==> HasPayout(Run(b, ops).rows, o, shop)
    decreases |ops|
  {
    if ops != [] {
      StepKeepsInv(b, ops[0], orders);
      RunKeepsInv(Next(b, ops[0]), ops[1..], orders);
    }
  }

  // ---- conservation ------------------------------------------------------------------------------

  function PaidOut(rows: seq<PayoutRow>, orderId: nat): int {
    if rows == [] then 0
    else PaidOut(rows[..|rows| - 1], orderId) + (if rows[|rows| - 1].orderId == orderId then rows[|rows| - 1].cents else 0)
  }

  function ShopsPaid(rows: seq<PayoutRow>, orderId: nat): set<string> {
    set i | 0 <= i < |rows| && rows[i].orderId == orderId :: rows[i].shopId
  }

  function TotalOfShops(ls: seq<Line>, shops: set<string>): int {
    if ls == [] then 0
    else TotalOfShops(ls[..|ls| - 1], shops) + (if ls[|ls| - 1].shopId in shops then ls[|ls| - 1].lineTotal else 0)
  }

  lemma {:induction false} OneMoreShop(ls: seq<Line>, shops: set<string>, shop: string)
    requires shop !in shops
    ensures TotalOfShops(ls, shops + {shop}) == TotalOfShops(ls, shops) + ShopTotal(ls, shop)
  {
    if ls != [] {
      OneMoreShop(ls[..|ls| - 1], shops, shop);
    }
  }

  lemma {:induction false} NoShops(ls: seq<Line>)
    ensures TotalOfShops(ls, {}) == 0
  {
    if ls != [] {
      NoShops(ls[..|ls| - 1]);
    }
  }

  lemma {:induction false} PaidOutIsTotalOfShops(rows: seq<PayoutRow>, orderId: nat, ls: seq<Line>)
    requires forall i, j :: 0 <= i < j < |rows| ==> rows[i].orderId != rows[j].orderId || rows[i].shopId != rows[j].shopId
    requires forall i :: 0 <= i < |rows| && rows[i].orderId == orderId ==> rows[i].cents == ShopTotal(ls, rows[i].shopId)
    ensures PaidOut(rows, orderId) == TotalOfShops(ls, ShopsPaid(rows, orderId))
  {
    if rows == [] {
      assert ShopsPaid(rows, orderId) == {};
      NoShops(ls);
    } else {
      var n := |rows| - 1;
      PaidOutIsTotalOfShops(rows[..n], orderId, ls);
      var before := ShopsPaid(rows[..n], orderId);
      if rows[n].orderId == orderId {
        assert rows[n].shopId !in before;
        OneMoreShop(ls, before, rows[n].shopId);
        forall shop ensures shop in ShopsPaid(rows, orderId) <==> shop in before + {rows[n].shopId} {
          if shop in before {
            var i :| 0 <= i < n && rows[..n][i].orderId == orderId && rows[..n][i].shopId == shop;
            assert rows[i].shopId == shop;
          }
        }
        assert ShopsPaid(rows, orderId) == before + {rows[n].shopId};
      } else {
        forall shop ensures shop in ShopsPaid(rows, orderId) <==> shop in before {
          if shop in before {
            var i :| 0 <= i < n && rows[..n][i].orderId == orderId && rows[..n][i].shopId == shop;
            assert rows[i].shopId == shop;
          }
        }
        assert ShopsPaid(rows, orderId) == before;
      }
    }
  }

  lemma {:induction false} ShopsAndPlatform(ls: seq<Line>, shops: set<string>)
    requires "" !in shops && forall i :: 0 <= i < |ls| ==> ls[i].shopId == "" || ls[i].shopId in shops
    ensures TotalOfShops(ls, shops) + ShopTotal(ls, "") == Total(LineTotalOf, ls)
  {
    if ls != [] {
      var n := |ls| - 1;
      ShopsAndPlatform(ls[..n], shops);
      TotalPush(LineTotalOf, ls[..n], ls[n]);
      assert ls == ls[..n] + [ls[n]];
    }
  }

  /** Once an order's confirmation was processed, what the shops get and what the platform keeps is the whole order. */
  lemma Conserved(b: Book, orderId: nat, orders: Catalogue)
    requires Inv(b, orders) && orderId in orders && PaidOutInFull(b, orderId, orders[orderId].lines)
    ensures PaidOut(b.rows, orderId) + ShopTotal(orders[orderId].lines, "") == Total(LineTotalOf, orders[orderId].lines)
  {
    var ls, shops := orders[orderId].lines, ShopsPaid(b.rows, orderId);
    forall i | 0 <= i < |b.rows| ensures RowOk(b.rows[i], orders) {
    }
    PaidOutIsTotalOfShops(b.rows, orderId, ls);
    forall i | 0 <= i < |ls| ensures ls[i].shopId == "" || ls[i].shopId in shops {
      assert Groups.HasShop(ls, ls[i].shopId);
    }
    ShopsAndPlatform(ls, shops);
  }

  /** The same, over a whole run: one confirmation that was not a replay is enough. */
  lemma ConservedOverRuns(before: seq<Op>, op: Op, after: seq<Op>, orders: Catalogue)
    requires forall k :: 0 <= k < |before| ==> Faithful(before[k], orders)
    requires forall k :: 0 <= k < |after| ==> Faithful(after[k], orders)
    requires op.Confirmed? && Faithful(op, orders) && !Seen(Run(EMPTY, before), op.eventId)
    ensures var final := Run(Next(Run(EMPTY, before), op), after);
            PaidOut(final.rows, op.orderId) + ShopTotal(orders[op.orderId].lines, "") == Total(LineTotalOf, orders[op.orderId].lines)
  {
    RunKeepsInv(EMPTY, before, orders);
    var mid := Run(EMPTY, before);
    StepKeepsInv(mid, op, orders);
    RunKeepsInv(Next(mid, op), after, orders);
    Conserved(Run(Next(mid, op), after), op.orderId, orders);
  }
}
