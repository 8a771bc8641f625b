/** A checkout is all or nothing: what a placed order agrees with, and what a failed one leaves behind. */
module Checkout {
  import opened Base
  import opened Orders
  import opened Saga
  import Pricing
  import Inventory
  import StockAccounting
  import Payment
  import OrderStore

  // ---- success ---------------------------------------------------------------------------

  /** Units of a product over an order's lines. */
  function OrderedUnits(ls: seq<Pricing.Line>, p: string): int {
    if ls == [] then 0
    else OrderedUnits(ls[..|ls| - 1], p) + (if ls[|ls| - 1].productId == p then ls[|ls| - 1].quantity else 0)
  }

  lemma {:induction false} ReservedAsAsked(cart: seq<Pricing.Item>, p: string)
    ensures Inventory.Units(ReserveItems(cart), p) == Pricing.Asked(cart, p)
  {
    if cart != [] {
      var n := |cart| - 1;
      ReservedAsAsked(cart[..n], p);
      Pricing.AskedPush(cart[..n], cart[n], p);
      assert cart[..n] + [cart[n]] == cart;
      assert ReserveItems(cart)[..n] == ReserveItems(cart[..n]);
    }
  }

  /** With distinct products a product's units are its one line's. */
  lemma {:induction false} UnitsOfDistinct(ls: seq<Pricing.Line>, p: string)
    requires Pricing.DistinctProducts(ls)
    ensures forall i :: 0 <= i < |ls| && ls[i].productId == p ==> OrderedUnits(ls, p) == ls[i].quantity
    ensures (forall i :: 0 <= i < |ls| ==> ls[i].productId != p) ==> OrderedUnits(ls, p) == 0
  {
    if ls != [] {
      var n := |ls| - 1;
      UnitsOfDistinct(ls[..n], p);
      if ls[n].productId == p {
        assert forall i :: 0 <= i < n ==> ls[..n][i].productId == ls[i].productId != p;
      } else {
        forall i | 0 <= i < |ls| && ls[i].productId == p ensures OrderedUnits(ls, p) == ls[i].quantity {
          assert ls[..n][i] == ls[i];
        }
      }
    }
  }

  /** A reserve that went through asked for each product once, so no quantity wrapped on its way into the quote. */
  lemma NothingWrapped(stock: map<string, Inventory.Level>, cart: seq<Pricing.Item>, p: string)
    requires Inventory.ReserveRefusal(stock, ReserveItems(cart)) == None
    ensures Wrap32(Pricing.Asked(cart, p)) == Pricing.Asked(cart, p)
  {
    var items := ReserveItems(cart);
    ReservedAsAsked(cart, p);
    StockAccounting.AcceptedItemsOk(stock, items);
    StockAccounting.UnitsBounds(items, p);
    if Inventory.Repeats(items, p) {
      var i :| 0 <= i < |items| && items[i].productId == p;
      StockAccounting.UnitsOfLine(items, i);
      assert items[i].quantity == cart[i].quantity;
    }
  }

  lemma QuotedAsAsked(q: Pricing.Quote, cart: seq<Pricing.Item>, catalog: map<string, Pricing.Product>, currency: string,
                      coupon: Option<Pricing.Coupon>, taxBps: int, p: string)
    requires Pricing.IsQuote(q, Pricing.Quantities(cart), catalog, currency, coupon, taxBps)
    requires Wrap32(Pricing.Asked(cart, p)) == Pricing.Asked(cart, p)
    ensures OrderedUnits(q.lines, p) == Pricing.Asked(cart, p)
  {
    var qty := Pricing.Quantities(cart);
    var ls: seq<Pricing.Line> :| Pricing.LinesFor(ls, qty, catalog, currency) && q == Pricing.QuoteOf(currency, ls, coupon, taxBps);
    Pricing.QuantitiesMeaning(cart, p);
    assert Pricing.DistinctProducts(q.lines);
    UnitsOfDistinct(q.lines, p);
    if p in qty {
      var i :| 0 <= i < |ls| && ls[i].productId == p;
      assert ls[i] in ls;
      assert q.lines[i].productId == p && q.lines[i].quantity == qty[p];
    } else {
      forall i | 0 <= i < |q.lines| ensures q.lines[i].productId != p {
        assert ls[i] in ls;
      }
    }
  }

  /**
   A placed order: exactly one, PENDING, with a HELD reservation of exactly the units it lists and an unconfirmed
   payment of exactly its total; nothing else changed.
   */
  lemma PlacedAgrees(s: Services, t: Services, in_: CreateInput, currency: string, env: Env, q: Pricing.Quote)
    requires WentThrough(s, t, in_, currency, env, q) && env.orderId !in s.db.orders
    ensures t.db.orders == s.db.orders[env.orderId := NewOrder(in_, q, |s.pay.intents|, |s.inv.reservations|, env.now)]
    ensures t.inv.reservations == s.inv.reservations + [t.inv.reservations[|s.inv.reservations|]]
    ensures t.pay.intents == s.pay.intents + [Payment.Intent(env.orderId, t.db.orders[env.orderId].total, Payment.RequiresConfirmation, 0)]
    ensures var o := t.db.orders[env.orderId];
            && o.status == PendingPayment && o.ownerId == in_.ownerId && !o.released && !o.voided
            && o.lines == q.lines && o.subtotal == q.subtotal && o.discount == q.discount && o.tax == q.tax && o.total == q.total
            && o.cancelReason == "" && o.updatedAt == env.now
            && t.inv.reservations[|s.inv.reservations|].expiresAt == env.now + 900
            && o.paymentId == Some(|s.pay.intents|) && o.reservationId == Some(|s.inv.reservations|)
            && Inventory.IsHeld(t.inv, |s.inv.reservations|)
            && t.inv.reservations[|s.inv.reservations|].orderRef == env.orderId
            && forall p :: Inventory.Units(t.inv.reservations[|s.inv.reservations|].items, p) == OrderedUnits(o.lines, p)
  {
    var cart := env.cart.value;
    forall p ensures Inventory.Units(ReserveItems(cart), p) == OrderedUnits(q.lines, p) {
      ReservedAsAsked(cart, p);
      NothingWrapped(s.inv.stock, cart, p);
      QuotedAsAsked(q, cart, env.catalog, currency, CouponOf(in_, env), env.taxBps, p);
    }
  }

  /** With a catalogue of no negative prices, a placed order is priced as later returns rely on. */
  lemma PlacedWellPriced(s: Services, t: Services, in_: CreateInput, currency: string, env: Env, q: Pricing.Quote)
    requires WentThrough(s, t, in_, currency, env, q)
    requires forall id :: id in env.catalog ==> Pricing.LineFor(id, 1, env.catalog[id], currency).unitPrice >= 0
    ensures WellPriced(NewOrder(in_, q, |s.pay.intents|, |s.inv.reservations|, env.now))
  {
    var cart := env.cart.value;
    var qty := Pricing.Quantities(cart);
    var ls: seq<Pricing.Line> :| Pricing.LinesFor(ls, qty, env.catalog, currency)
              && q == Pricing.QuoteOf(currency, ls, CouponOf(in_, env), env.taxBps);
    forall l | l in q.lines ensures l.unitPrice >= 0 && l.quantity > 0 {
      var i :| 0 <= i < |q.lines| && q.lines[i] == l;
      assert ls[i] in ls;
      QuantityPositive(s.inv.stock, cart, l.productId);
    }
    GrossOfPriced(ls);
  }

  predicate ChargedAt(l: Pricing.Line, catalog: map<string, Pricing.Product>, currency: string) {
    && l.productId in catalog && catalog[l.productId].currency == currency
    && l.unitPrice == catalog[l.productId].units * 100 + GoDiv(catalog[l.productId].nanos, 10_000_000)
    && l.lineTotal == l.unitPrice * l.quantity
  }

  lemma QuotedAtCatalogue(q: Pricing.Quote, in_: CreateInput, env: Env, currency: string)
    requires env.cart.Some?
    requires Pricing.Quotable(currency, env.cart.value, env.catalog, env.catalogUp, env.coupons, in_.couponCode, env.now)
    requires Pricing.IsQuote(q, Pricing.Quantities(env.cart.value), env.catalog, currency, CouponOf(in_, env), env.taxBps)
    ensures forall i :: 0 <= i < |q.lines| ==> ChargedAt(q.lines[i], env.catalog, currency)
    ensures in_.couponCode != "" ==> in_.couponCode in env.coupons && Pricing.Usable(env.coupons[in_.couponCode], env.now)
  {
    var cart := env.cart.value;
    Pricing.QuotableMeans(currency, cart, env.catalog, env.catalogUp, env.coupons, in_.couponCode, env.now);
    forall i | 0 <= i < |q.lines| ensures ChargedAt(q.lines[i], env.catalog, currency) {
      Pricing.QuotedLine(q, cart, env.catalog, currency, CouponOf(in_, env), env.taxBps, i);
    }
  }

  /**
   What an order charges: each line at the catalogue's price in the checkout's currency, US dollars if it gives none of
   three letters; what its coupon takes off, which must be usable; the tax on the rest; and a total above zero.
   */
  ghost predicate Charges(o: Order, in_: CreateInput, env: Env) {
    var code := in_.couponCode;
    && (forall i :: 0 <= i < |o.lines| ==>
          ChargedAt(o.lines[i], env.catalog, if |in_.currency| == 3 then in_.currency else "USD"))
    && o.subtotal == Total(Pricing.LineTotalOf, o.lines)
    && (code != "" ==> code in env.coupons && Pricing.Usable(env.coupons[code], env.now))
    && Pricing.CutOff(o.discount, o.subtotal, if code == "" then None else Some(env.coupons[code]))
    && (if env.taxBps <= 0 then o.tax == 0
        else -5000 < 10_000 * o.tax - (o.subtotal - o.discount) * env.taxBps <= 5000)
    && o.total == o.subtotal - o.discount + o.tax && o.total > 0
  }

  lemma ChargesOf(q: Pricing.Quote, in_: CreateInput, env: Env, payment: nat, reservation: nat)
    requires q.total > 0 && Pricing.Adds(q, CouponOf(in_, env), env.taxBps)
    requires forall i :: 0 <= i < |q.lines| ==> ChargedAt(q.lines[i], env.catalog, CurrencyOf(in_))
    requires in_.couponCode != "" ==> in_.couponCode in env.coupons && Pricing.Usable(env.coupons[in_.couponCode], env.now)
    ensures Charges(NewOrder(in_, q, payment, reservation, env.now), in_, env)
  {
  }

  lemma ChargesAsQuoted(q: Pricing.Quote, in_: CreateInput, env: Env, payment: nat, reservation: nat)
    requires env.cart.Some? && q.total > 0 && Pricing.Sane(q.lines)
    requires Pricing.Quotable(CurrencyOf(in_), env.cart.value, env.catalog, env.catalogUp, env.coupons, in_.couponCode, env.now)
    requires Pricing.IsQuote(q, Pricing.Quantities(env.cart.value), env.catalog, CurrencyOf(in_), CouponOf(in_, env), env.taxBps)
    ensures Charges(NewOrder(in_, q, payment, reservation, env.now), in_, env)
  {
    QuotedAtCatalogue(q, in_, env, CurrencyOf(in_));
    Pricing.QuoteOfRequestAdds(q, Pricing.Quantities(env.cart.value), env.catalog, CurrencyOf(in_), CouponOf(in_, env), env.taxBps);
    ChargesOf(q, in_, env, payment, reservation);
  }

  lemma PlacedCharges(s: Services, t: Services, in_: CreateInput, env: Env, q: Pricing.Quote)
    requires WentThrough(s, t, in_, CurrencyOf(in_), env, q)
    requires forall id :: id in env.catalog ==> Pricing.LineFor(id, 1, env.catalog[id], CurrencyOf(in_)).unitPrice >= 0
    ensures env.orderId in t.db.orders && Charges(t.db.orders[env.orderId], in_, env)
  {
    PlacedWellPriced(s, t, in_, CurrencyOf(in_), env, q);
    ChargesAsQuoted(q, in_, env, |s.pay.intents|, |s.inv.reservations|);
  }

  /** What was reserved is quoted in a positive quantity. */
  lemma QuantityPositive(stock: map<string, Inventory.Level>, cart: seq<Pricing.Item>, p: string)
    requires Inventory.ReserveRefusal(stock, ReserveItems(cart)) == None && p in Pricing.Quantities(cart)
    ensures Pricing.Quantities(cart)[p] > 0
  {
    StockAccounting.AcceptedItemsOk(stock, ReserveItems(cart));
    Pricing.QuantitiesMeaning(cart, p);
    NothingWrapped(stock, cart, p);
    ReservedAsAsked(cart, p);
    StockAccounting.UnitsBounds(ReserveItems(cart), p);
    var k :| 0 <= k < |cart| && cart[k].productId == p;
    assert ReserveItems(cart)[k].productId == p;
  }

  lemma {:induction false} GrossOfPriced(ls: seq<Pricing.Line>)
    ensures Total(Pricing.Gross, Pricing.Priced(ls)) == Total(Pricing.Gross, ls)
  {
    if ls != [] {
      assert Pricing.Priced(ls)[1..] == Pricing.Priced(ls[1..]);
      GrossOfPriced(ls[1..]);
    }
  }

  // ---- failure -----------------------------------------------------------------------------

  /** A product that was reserved had stock on hand. */
  lemma {:induction false} ReservedWasOnHand(stock: map<string, Inventory.Level>, items: seq<Inventory.Item>, i: nat)
    requires Inventory.ReserveRefusal(stock, items) == None && i < |items|
    requires forall p :: p in stock ==> stock[p].reserved >= 0
    ensures items[i].productId in stock && stock[items[i].productId].onHand >= 0
  {
    var n := |items| - 1;
    if i < n {
      ReservedWasOnHand(stock, items[..n], i);
    } else {
      StockAccounting.AcceptedItemsOk(stock, items[..n]);
      StockAccounting.UnitsBounds(items[..n], items[n].productId);
    }
  }

  /** Releasing what was just reserved puts every level back where it was. */
  lemma ReleaseUndoesReserve(inv: Inventory.Store, orderRef: nat, items: seq<Inventory.Item>, expiresAt: int)
    requires StockAccounting.Accounted(inv) && Inventory.ReserveRefusal(inv.stock, items) == None
    ensures var held := Inventory.Reserved(inv, orderRef, items, expiresAt);
            && StockAccounting.Accounted(held) && Inventory.IsHeld(held, |inv.reservations|)
            && CanFinish(held, |inv.reservations|)
            && Inventory.Finished(held, |inv.reservations|, false).stock == inv.stock
  {
    var held, id := Inventory.Reserved(inv, orderRef, items, expiresAt), |inv.reservations|;
    StockAccounting.ReserveKeeps(inv, orderRef, items, expiresAt);
    var after := Inventory.Finished(held, id, false);
    Inventory.TakenKeys(held.stock, items, false);
    assert held.reservations[id].items == items && items[..|items|] == items;
    forall p | p in inv.stock ensures after.stock[p] == inv.stock[p] {
      StockAccounting.FinishExact(held, id, false, p);
      forall q | q in inv.stock ensures inv.stock[q].reserved >= 0 {
        StockAccounting.StatusUnitsBounds(inv.reservations, Inventory.Held, q);
      }
      if Inventory.Repeats(items, p) {
        var i :| 0 <= i < |items| && items[i].productId == p;
        ReservedWasOnHand(inv.stock, items, i);
        StockAccounting.ClampNeverFires(held, id, false, |items|, p);
      } else {
        StockAccounting.TakenUntouched(held.stock, items, false, p);
        StockAccounting.AcceptedItemsOk(inv.stock, items);
        StockAccounting.UnitsBounds(items, p);
      }
    }
  }

  lemma LoneRelease(s: Services, up: Todo -> bool, id: nat)
    ensures Work(s, up, [Release(id, None)]) ==
            if up(Release(id, None)) && CanFinish(s.inv, id) then s.(inv := Inventory.Finished(s.inv, id, false)) else s
  {
    var t := Do(s, [Release(id, None)], up(Release(id, None)));
    assert t.todo == [];
  }

  lemma LoneVoid(s: Services, up: Todo -> bool, id: nat)
    ensures Work(s, up, [Void(id, None)]) ==
            if up(Void(id, None)) && CanVoid(s.pay, id) then s.(pay := Payment.Transitioned(s.pay, id, Payment.Voided)) else s
  {
    var t := Do(s, [Void(id, None)], up(Void(id, None)));
    assert t.todo == [];
  }

  lemma AfterLostInsertIs(s: Services, env: Env, up: Todo -> bool, cents: int)
    requires env.cart.Some?
    ensures var mid := Held(s, env.cart.value, env).(pay := Payment.Created(s.pay, env.orderId, cents));
            AfterLostInsert(s, env, up, cents) ==
            Work(Work(mid, up, [Release(|s.inv.reservations|, None)]), up, [Void(|s.pay.intents|, None)])
  {
    var mid := Held(s, env.cart.value, env).(pay := Payment.Created(s.pay, env.orderId, cents));
    WorkAppend(mid, up, [Release(|s.inv.reservations|, None)], [Void(|s.pay.intents|, None)]);
  }

  /** What a failed checkout leaves: at most one reservation and one payment, both of an order that does not exist. */
  lemma FailureLeaves(s: Services, t: Services, env: Env, up: Todo -> bool)
    requires FellThrough(s, t, env, up) && StockAccounting.Accounted(s.inv)
    ensures t.db == s.db
    ensures t.inv == s.inv || (
              env.cart.Some? && Inventory.ReserveRefusal(s.inv.stock, ReserveItems(env.cart.value)) == None
              && var held := Held(s, env.cart.value, env).inv;
                 t.inv == if up(Release(|s.inv.reservations|, None)) then Inventory.Finished(held, |s.inv.reservations|, false) else held)
    ensures t.pay == s.pay || (
              exists cents :: cents > 0 &&
                var intent := Payment.Created(s.pay, env.orderId, cents);
                t.pay == if up(Void(|s.pay.intents|, None)) then Payment.Transitioned(intent, |s.pay.intents|, Payment.Voided) else intent)
  {
    if t != s {
      var id := |s.inv.reservations|;
      var held := Held(s, env.cart.value, env);
      ReleaseUndoesReserve(s.inv, env.orderId, ReserveItems(env.cart.value), env.now + RESERVATION_TTL);
      LoneRelease(held, up, id);
      if t != Work(held, up, [Release(id, None)]) {
        var cents :| cents > 0 && t == AfterLostInsert(s, env, up, cents);
        var mid := held.(pay := Payment.Created(s.pay, env.orderId, cents));
        AfterLostInsertIs(s, env, up, cents);
        LoneRelease(mid, up, id);
        LoneVoid(Work(mid, up, [Release(id, None)]), up, |s.pay.intents|);
        assert CanVoid(mid.pay, |s.pay.intents|);
      }
    }
  }

  /** With working compensations a failed checkout leaves no order, no stock held, and no open payment. */
  lemma FailureCompensated(s: Services, t: Services, env: Env, up: Todo -> bool)
    requires FellThrough(s, t, env, up) && StockAccounting.Accounted(s.inv)
    requires up(Release(|s.inv.reservations|, None)) && up(Void(|s.pay.intents|, None))
    ensures t.db == s.db && t.inv.stock == s.inv.stock
    ensures s.inv.reservations <= t.inv.reservations && s.pay.intents <= t.pay.intents
    ensures forall id :: |s.inv.reservations| <= id < |t.inv.reservations| ==> t.inv.reservations[id].status == Inventory.Released
    ensures forall id :: |s.pay.intents| <= id < |t.pay.intents| ==> t.pay.intents[id].status == Payment.Voided
  {
    FailureLeaves(s, t, env, up);
    if t.inv != s.inv {
      ReleaseUndoesReserve(s.inv, env.orderId, ReserveItems(env.cart.value), env.now + RESERVATION_TTL);
    }
  }

  /** A hold that was not released comes due once its time is up, and expiring it puts the stock back. */
  lemma LeftoverExpires(s: Services, t: Services, env: Env, up: Todo -> bool, later: int)
    requires FellThrough(s, t, env, up) && StockAccounting.Accounted(s.inv)
    requires later > env.now + RESERVATION_TTL
    ensures t.inv.stock == s.inv.stock
            || (&& Inventory.Due(t.inv, |s.inv.reservations|, later)
                && Inventory.Finished(t.inv, |s.inv.reservations|, false).stock == s.inv.stock)
  {
    FailureLeaves(s, t, env, up);
    if t.inv != s.inv {
      ReleaseUndoesReserve(s.inv, env.orderId, ReserveItems(env.cart.value), env.now + RESERVATION_TTL);
    }
  }

  /** Whatever an expiry sweep picks is no longer HELD when the sweep is through. */
  lemma {:induction false} SweptIsFree(inv: Inventory.Store, due: seq<nat>, id: nat)
    requires StockAccounting.Accounted(inv) && id in due
    ensures !Inventory.IsHeld(Inventory.Swept(inv, due), id)
  {
    var n := |due| - 1;
    var before := Inventory.Swept(inv, due[..n]);
    SweptAccounted(inv, due[..n]);
    StockAccounting.FinishKeeps(before, due[n], false);
    if id != due[n] {
      assert id in due[..n];
      SweptIsFree(inv, due[..n], id);
    }
  }

  lemma {:induction false} SweptAccounted(inv: Inventory.Store, due: seq<nat>)
    requires StockAccounting.Accounted(inv)
    ensures StockAccounting.Accounted(Inventory.Swept(inv, due))
  {
    if due != [] {
      var n := |due| - 1;
      SweptAccounted(inv, due[..n]);
      var mid := Inventory.Finished(Inventory.Swept(inv, due[..n]), due[n], false);
      StockAccounting.FinishKeeps(Inventory.Swept(inv, due[..n]), due[n], false);
      var out := Inventory.WithExpired(mid, due[n]);
      forall id | Inventory.IsHeld(out, id) ensures Inventory.AllStocked(out.stock, out.reservations[id].items) {
        assert Inventory.IsHeld(mid, id);
      }
    }
  }
}
