/** What holds of stock and reservations over every run of inventory transactions. */
module StockAccounting {
  import opened Base
  import opened Inventory

  /** Units of a product over the reservations in a status. */
  function StatusUnits(rs: seq<Reservation>, st: Status, p: string): int {
    if rs == [] then 0
    else (if rs[0].status == st then Units(rs[0].items, p) else 0) + StatusUnits(rs[1..], st, p)
  }

  ghost predicate ItemsOk(items: seq<Item>) {
    && (forall i :: 0 <= i < |items| ==> items[i].quantity > 0)
    && (forall i, j :: 0 <= i < j < |items| ==> items[i].productId != items[j].productId)
  }

  /** reserved is exactly what HELD reservations hold, and what they hold has stock rows. */
  ghost predicate Accounted(s: Store) {
    && (forall id :: 0 <= id < |s.reservations| ==> ItemsOk(s.reservations[id].items))
    && (forall id :: IsHeld(s, id) ==> AllStocked(s.stock, s.reservations[id].items))
    && (forall p :: p in s.stock ==> s.stock[p].reserved == StatusUnits(s.reservations, Held, p))
  }

  /** An expiry announcement proves that its reservation is no longer HELD. */
  ghost predicate Announced(s: Store) {
    forall k :: 0 <= k < |s.expired| ==>
      && s.expired[k].reservation < |s.reservations|
      && s.reservations[s.expired[k].reservation].status != Held
      && s.reservations[s.expired[k].reservation].orderRef == s.expired[k].orderRef
  }

  /** Nothing is promised twice: reserved never exceeds what is on hand. */
  ghost predicate NoOversell(s: Store) {
    forall p :: p in s.stock ==> s.stock[p].reserved <= s.stock[p].onHand
  }

  // ---- sums ---------------------------------------------------------------------

  lemma {:induction false} UnitsBounds(items: seq<Item>, p: string)
    requires ItemsOk(items)
    ensures Units(items, p) >= 0
    ensures Units(items, p) > 0 <==> Repeats(items, p)
  {
    if items != [] {
      var n := |items| - 1;
      UnitsBounds(items[..n], p);
      if Repeats(items[..n], p) {
        var i :| 0 <= i < n && items[..n][i].productId == p;
        assert items[i].productId == p;
      }
      if items[n].productId != p && Repeats(items, p) {
        var i :| 0 <= i < |items| && items[i].productId == p;
        assert items[..n][i].productId == p;
      }
    }
  }

  /** A line's own product counts exactly that line. */
  lemma {:induction false} UnitsOfLine(items: seq<Item>, i: nat)
    requires ItemsOk(items) && i < |items|
    ensures Units(items, items[i].productId) == items[i].quantity
  {
    var n := |items| - 1;
    if i < n {
      UnitsOfLine(items[..n], i);
    } else {
      UnitsBounds(items[..n], items[n].productId);
      assert forall k :: 0 <= k < n ==> items[..n][k].productId == items[k].productId != items[n].productId;
    }
  }

  lemma {:induction false} UnitsPrefix(items: seq<Item>, k: nat, p: string)
    requires ItemsOk(items) && k <= |items|
    ensures Units(items[..k], p) <= Units(items, p)
    decreases |items|
  {
    if k < |items| {
      var n := |items| - 1;
      assert items[..n][..k] == items[..k];
      UnitsPrefix(items[..n], k, p);
    } else {
      assert items[..k] == items;
    }
  }

  lemma {:induction false} StatusUnitsPush(rs: seq<Reservation>, r: Reservation, st: Status, p: string)
    ensures StatusUnits(rs + [r], st, p) == StatusUnits(rs, st, p) + (if r.status == st then Units(r.items, p) else 0)
  {
    if rs != [] {
      assert (rs + [r])[1..] == rs[1..] + [r];
      StatusUnitsPush(rs[1..], r, st, p);
    }
  }

  lemma {:induction false} StatusUnitsUpdate(rs: seq<Reservation>, id: nat, to: Status, st: Status, p: string)
    requires id < |rs|
    ensures var r := rs[id];
            StatusUnits(rs[id := r.(status := to)], st, p) ==
            StatusUnits(rs, st, p) - (if r.status == st then Units(r.items, p) else 0)
                                   + (if to == st then Units(r.items, p) else 0)
  {
    var r := rs[id].(status := to);
    if id > 0 {
      assert rs[id := r][1..] == rs[1..][id - 1 := r];
      StatusUnitsUpdate(rs[1..], id - 1, to, st, p);
    } else {
      assert rs[id := r][1..] == rs[1..];
    }
  }

  lemma {:induction false} StatusUnitsBounds(rs: seq<Reservation>, st: Status, p: string)
    requires forall id :: 0 <= id < |rs| ==> ItemsOk(rs[id].items)
    ensures StatusUnits(rs, st, p) >= 0
    ensures forall id :: 0 <= id < |rs| && rs[id].status == st ==> Units(rs[id].items, p) <= StatusUnits(rs, st, p)
    ensures (forall id :: 0 <= id < |rs| && rs[id].status == st ==> !Repeats(rs[id].items, p)) ==> StatusUnits(rs, st, p) == 0
  {
    if rs != [] {
      UnitsBounds(rs[0].items, p);
      StatusUnitsBounds(rs[1..], st, p);
      assert forall id :: 0 <= id < |rs| - 1 ==> rs[1..][id] == rs[id + 1];
    }
  }

  lemma NothingHeldWithoutStock(s: Store, p: string)
    requires Accounted(s) && p !in s.stock
    ensures StatusUnits(s.reservations, Held, p) == 0
  {
    forall id | 0 <= id < |s.reservations| && s.reservations[id].status == Held ensures !Repeats(s.reservations[id].items, p) {
      assert IsHeld(s, id);
    }
    StatusUnitsBounds(s.reservations, Held, p);
  }

  // ---- Reserve -----------------------------------------------------------------------

  lemma {:induction false} AcceptedItemsOk(stock: map<string, Level>, items: seq<Item>)
    requires ReserveRefusal(stock, items) == None
    ensures ItemsOk(items) && AllStocked(stock, items)
    ensures forall p :: p in stock && stock[p].reserved <= stock[p].onHand ==>
              stock[p].reserved + Units(items, p) <= stock[p].onHand
  {
    if items != [] {
      var n := |items| - 1;
      AcceptedItemsOk(stock, items[..n]);
      forall i | 0 <= i < n ensures items[i].productId != items[n].productId {
        assert items[..n][i].productId == items[i].productId;
      }
    }
  }

  lemma ReserveKeeps(s: Store, orderRef: nat, items: seq<Item>, expiresAt: int)
    requires Accounted(s)
    ensures Accounted(Reserved(s, orderRef, items, expiresAt))
    ensures NoOversell(s) ==> NoOversell(Reserved(s, orderRef, items, expiresAt))
    ensures Announced(s) ==> Announced(Reserved(s, orderRef, items, expiresAt))
  {
    if ReserveRefusal(s.stock, items) == None {
      AcceptedItemsOk(s.stock, items);
      var t := Reserved(s, orderRef, items, expiresAt);
      forall p | p in t.stock ensures t.stock[p].reserved == StatusUnits(t.reservations, Held, p) {
        StatusUnitsPush(s.reservations, Reservation(orderRef, items, Held, expiresAt), Held, p);
      }
      forall id | IsHeld(t, id) ensures AllStocked(t.stock, t.reservations[id].items) {
        if id < |s.reservations| {
          assert IsHeld(s, id);
        }
      }
    }
  }

  // ---- Commit, Release -----------------------------------------------------------------

  /**
   At every point of the loop over a HELD reservation's items, reserved is the old value less the units
   taken so far: the clamp at zero never fires. Without overselling, neither does the one on on_hand.
   */
  lemma {:induction false} ClampNeverFires(s: Store, id: nat, commit: bool, k: nat, p: string)
    requires Accounted(s) && IsHeld(s, id) && k <= |s.reservations[id].items| && p in s.stock
    ensures var items := s.reservations[id].items[..k];
            && p in Taken(s.stock, items, commit)
            && Taken(s.stock, items, commit)[p].reserved == s.stock[p].reserved - Units(items, p) >= 0
            && (!commit ==> s.stock[p].onHand >= 0 ==> Taken(s.stock, items, commit)[p].onHand == s.stock[p].onHand)
            && (commit ==> NoOversell(s) ==> Taken(s.stock, items, commit)[p].onHand == s.stock[p].onHand - Units(items, p) >= 0)
  {
    var all := s.reservations[id].items;
    StatusUnitsBounds(s.reservations, Held, p);
    UnitsPrefix(all, k, p);
    if k > 0 {
      ClampNeverFires(s, id, commit, k - 1, p);
      assert all[..k][..k - 1] == all[..k - 1];
      assert all[k - 1].productId in s.stock;
    }
  }

  /** What a Commit or Release of a HELD reservation does to stock, with no clamping in sight. */
  lemma FinishExact(s: Store, id: nat, commit: bool, p: string)
    requires Accounted(s) && IsHeld(s, id) && p in s.stock
    ensures Finished(s, id, commit).stock.Keys == s.stock.Keys
    ensures var l := Finished(s, id, commit).stock[p];
            var u := Units(s.reservations[id].items, p);
            && l.reserved == s.stock[p].reserved - u
            && (NoOversell(s) ==> l.onHand == if commit then s.stock[p].onHand - u else s.stock[p].onHand)
  {
    var items := s.reservations[id].items;
    assert items[..|items|] == items;
    StatusUnitsBounds(s.reservations, Held, p);
    ClampNeverFires(s, id, commit, |items|, p);
    TakenKeys(s.stock, items, commit);
  }

  lemma FinishKeeps(s: Store, id: nat, commit: bool)
    requires Accounted(s)
    ensures Accounted(Finished(s, id, commit))
    ensures !IsHeld(Finished(s, id, commit), id)
    ensures NoOversell(s) ==> NoOversell(Finished(s, id, commit))
    ensures Announced(s) ==> Announced(Finished(s, id, commit))
  {
    var t := Finished(s, id, commit);
    if IsHeld(s, id) {
      var items := s.reservations[id].items;
      var to := if commit then Committed else Released;
      TakenKeys(s.stock, items, commit);
      forall p | p in t.stock
        ensures t.stock[p].reserved == StatusUnits(t.reservations, Held, p)
        ensures NoOversell(s) ==> t.stock[p].reserved <= t.stock[p].onHand
      {
        FinishExact(s, id, commit, p);
        StatusUnitsUpdate(s.reservations, id, to, Held, p);
        UnitsBounds(items, p);
      }
      forall k | IsHeld(t, k) ensures AllStocked(t.stock, t.reservations[k].items) {
        assert IsHeld(s, k);
      }
      forall k | 0 <= k < |t.reservations| ensures ItemsOk(t.reservations[k].items) {
        assert ItemsOk(s.reservations[k].items);
      }
    }
  }

  // ---- what each transaction does to each level ------------------------------------------------

  /** A reserve goes through exactly when every line asks for some of a stocked product, once, and it is available. */
  lemma {:induction false} ReserveAcceptsExactly(stock: map<string, Level>, items: seq<Item>)
    ensures ReserveRefusal(stock, items) == None <==>
            && (forall i :: 0 <= i < |items| ==>
                  && items[i].productId in stock && items[i].quantity > 0
                  && stock[items[i].productId].onHand - stock[items[i].productId].reserved >= items[i].quantity)
            && (forall i, j :: 0 <= i < j < |items| ==> items[i].productId != items[j].productId)
  {
    if items != [] {
      var n := |items| - 1;
      ReserveAcceptsExactly(stock, items[..n]);
      if forall i, j :: 0 <= i < j < n ==> items[i].productId != items[j].productId {
        if !Repeats(items[..n], items[n].productId) {
          NothingOfAbsent(items[..n], items[n].productId);
        }
      }
      assert forall i :: 0 <= i < n ==> items[..n][i] == items[i];
    }
  }

  /**
   Line n is the first that cannot be met, and why: its product has no stock row or too little left after the lines
   before it, or else the line repeats a product or asks for nothing, and the database refuses it.
   */
  predicate FailsAt(stock: map<string, Level>, items: seq<Item>, n: nat, why: Reason)
    requires n < |items|
  {
    var p := items[n].productId;
    && ReserveRefusal(stock, items[..n]) == None
    && match why
       case InsufficientStock => p !in stock || stock[p].onHand - stock[p].reserved - Units(items[..n], p) < items[n].quantity
       case DbError =>
         && p in stock && stock[p].onHand - stock[p].reserved - Units(items[..n], p) >= items[n].quantity
         && (items[n].quantity <= 0 || exists i :: 0 <= i < n && items[i].productId == p)
  }

  lemma {:induction false} RefusedAtFirst(stock: map<string, Level>, items: seq<Item>)
    ensures ReserveRefusal(stock, items).Some? ==>
              exists n :: 0 <= n < |items| && FailsAt(stock, items, n, ReserveRefusal(stock, items).value)
  {
    if items != [] {
      var last := |items| - 1;
      var init := items[..last];
      var why := ReserveRefusal(stock, items);
      RefusedAtFirst(stock, init);
      if ReserveRefusal(stock, init).Some? {
        var n :| 0 <= n < |init| && FailsAt(stock, init, n, why.value);
        assert init[..n] == items[..n];
        assert FailsAt(stock, items, n, why.value);
      } else if why.Some? {
        assert FailsAt(stock, items, last, why.value);
      }
    }
  }

  lemma {:induction false} NothingOfAbsent(items: seq<Item>, p: string)
    requires !Repeats(items, p)
    ensures Units(items, p) == 0
  {
    if items != [] {
      var n := |items| - 1;
      assert items[n].productId != p;
      assert forall i :: 0 <= i < n ==> items[..n][i].productId == items[i].productId;
      NothingOfAbsent(items[..n], p);
    }
  }

  /** It holds each line's quantity of its product, and touches nothing else. */
  lemma {:induction false} ReserveFigures(s: Store, orderRef: nat, items: seq<Item>, expiresAt: int)
    requires ReserveRefusal(s.stock, items) == None
    ensures var t := Reserved(s, orderRef, items, expiresAt);
            && t.reservations == s.reservations + [Reservation(orderRef, items, Held, expiresAt)] && t.expired == s.expired
            && t.stock.Keys == s.stock.Keys
            && (forall i :: 0 <= i < |items| ==>
                  && items[i].productId in s.stock
                  && var l := s.stock[items[i].productId];
                     t.stock[items[i].productId] == Level(l.onHand, l.reserved + items[i].quantity))
            && (forall p :: p in s.stock && !Repeats(items, p) ==> t.stock[p] == s.stock[p])
  {
    AcceptedItemsOk(s.stock, items);
    var t := Reserved(s, orderRef, items, expiresAt);
    forall i | 0 <= i < |items|
      ensures items[i].productId in s.stock
      ensures var l := s.stock[items[i].productId];
              t.stock[items[i].productId] == Level(l.onHand, l.reserved + items[i].quantity)
    {
      UnitsOfLine(items, i);
    }
    forall p | p in s.stock && !Repeats(items, p) ensures t.stock[p] == s.stock[p] {
      NothingOfAbsent(items, p);
    }
  }

  lemma {:induction false} TakenUntouched(stock: map<string, Level>, items: seq<Item>, commit: bool, p: string)
    requires p in stock && !Repeats(items, p)
    ensures p in Taken(stock, items, commit) && Taken(stock, items, commit)[p] == stock[p]
  {
    if items != [] {
      var n := |items| - 1;
      assert items[n].productId != p;
      assert forall i :: 0 <= i < n ==> items[..n][i].productId == items[i].productId != p;
      TakenUntouched(stock, items[..n], commit, p);
    }
  }

  /** Each product's one line decides what is taken of it. */
  lemma {:induction false} TakenOnce(stock: map<string, Level>, items: seq<Item>, commit: bool, i: nat)
    requires ItemsOk(items) && AllStocked(stock, items) && i < |items|
    ensures items[i].productId in Taken(stock, items, commit)
    ensures Taken(stock, items, commit)[items[i].productId] == ClampedTake(stock[items[i].productId], items[i].quantity, commit)
  {
    var n := |items| - 1;
    if i < n {
      TakenOnce(stock, items[..n], commit, i);
    } else {
      assert !Repeats(items[..n], items[n].productId);
      TakenUntouched(stock, items[..n], commit, items[n].productId);
    }
  }

  function AtLeast0(x: int): int {
    if x < 0 then 0 else x
  }

  /**
   Finishing a HELD reservation takes each line's quantity off what is reserved and, if it commits, off what is on
   hand; nothing else moves. On hand stops at zero, which it never meets without overselling.
   */
  ghost predicate SettlesStock(s: Store, t: Store, id: nat, commit: bool)
    requires id < |s.reservations|
  {
    var items := s.reservations[id].items;
    && t.reservations == s.reservations[id := s.reservations[id].(status := if commit then Committed else Status.Released)]
    && t.expired == s.expired && t.stock.Keys == s.stock.Keys
    && (forall i :: 0 <= i < |items| ==>
          && items[i].productId in s.stock
          && var l := s.stock[items[i].productId];
             && t.stock[items[i].productId] ==
                Level(AtLeast0(if commit then l.onHand - items[i].quantity else l.onHand), l.reserved - items[i].quantity)
             && (NoOversell(s) ==> l.onHand - items[i].quantity >= 0))
    && (forall p :: p in s.stock && !Repeats(items, p) ==> t.stock[p] == s.stock[p])
  }

  lemma FinishFigures(s: Store, id: nat, commit: bool)
    requires Accounted(s) && IsHeld(s, id)
    ensures SettlesStock(s, Finished(s, id, commit), id, commit)
  {
    var items := s.reservations[id].items;
    var t := Finished(s, id, commit);
    TakenKeys(s.stock, items, commit);
    forall i | 0 <= i < |items|
      ensures items[i].productId in s.stock
      ensures var l := s.stock[items[i].productId];
              && t.stock[items[i].productId] ==
                 Level(AtLeast0(if commit then l.onHand - items[i].quantity else l.onHand), l.reserved - items[i].quantity)
              && (NoOversell(s) ==> l.onHand - items[i].quantity >= 0)
    {
      TakenOnce(s.stock, items, commit, i);
      UnitsOfLine(items, i);
      StatusUnitsBounds(s.reservations, Held, items[i].productId);
    }
    forall p | p in s.stock && !Repeats(items, p) ensures t.stock[p] == s.stock[p] {
      TakenUntouched(s.stock, items, commit, p);
    }
  }

  /** An adjustment moves on_hand by its delta, not below zero, a seed only opens a row; neither touches anything else. */
  lemma AdjustFigures(s: Store, p: string, delta: int, onHand: nat)
    ensures var t := Adjusted(s, p, delta);
            && t == s.(stock := t.stock) && t.stock.Keys == s.stock.Keys + {p}
            && t.stock[p] == (if p in s.stock then Level(AtLeast0(s.stock[p].onHand + delta), s.stock[p].reserved)
                              else Level(AtLeast0(delta), 0))
            && forall q :: q in s.stock && q != p ==> t.stock[q] == s.stock[q]
    ensures var t := Seeded(s, p, onHand);
            && t == s.(stock := t.stock) && t.stock.Keys == s.stock.Keys + {p}
            && t.stock[p] == (if p in s.stock then s.stock[p] else Level(onHand, 0))
            && forall q :: q in s.stock && q != p ==> t.stock[q] == s.stock[q]
  {
  }

  // ---- adjustments ------------------------------------------------------------------------

  /** What a caller can check before adjusting: on_hand stays at or above what is reserved. */
  predicate AdjustSafe(s: Store, p: string, delta: int) {
    if p in s.stock then s.stock[p].onHand + delta >= s.stock[p].reserved else delta >= 0
  }

  lemma AdjustKeeps(s: Store, p: string, delta: int)
    requires Accounted(s)
    ensures Accounted(Adjusted(s, p, delta))
    ensures NoOversell(s) && AdjustSafe(s, p, delta) ==> NoOversell(Adjusted(s, p, delta))
    ensures Announced(s) ==> Announced(Adjusted(s, p, delta))
  {
    if p !in s.stock {
      NothingHeldWithoutStock(s, p);
    }
    var t := Adjusted(s, p, delta);
    forall id | IsHeld(t, id) ensures AllStocked(t.stock, t.reservations[id].items) {
      assert IsHeld(s, id);
    }
  }

  /** An adjustment keeps the promise exactly when it leaves on_hand at or above reserved, or nothing is reserved. */
  lemma AdjustBreaksExactly(s: Store, p: string, delta: int)
    requires Accounted(s) && NoOversell(s)
    ensures NoOversell(Adjusted(s, p, delta)) <==>
            AdjustSafe(s, p, delta) || p !in s.stock || s.stock[p].reserved == 0
  {
    var t := Adjusted(s, p, delta);
    if p in s.stock {
      StatusUnitsBounds(s.reservations, Held, p);
      assert NoOversell(t) ==> t.stock[p].reserved <= t.stock[p].onHand;
    }
    forall q | q in t.stock && q != p ensures t.stock[q].reserved <= t.stock[q].onHand {
      assert q in s.stock;
    }
  }

  /** A negative adjustment can oversell: of five units held, none is left on hand. */
  lemma NegativeAdjustmentOversells()
    ensures var s := Store(map["a" := Level(5, 5)], [Reservation(1, [Item("a", 5)], Held, 10)], []);
            && Accounted(s) && NoOversell(s)
            && !NoOversell(Adjusted(s, "a", -5))
  {
    var r := Reservation(1, [Item("a", 5)], Held, 10);
    var s := Store(map["a" := Level(5, 5)], [r], []);
    assert [Item("a", 5)][..0] == [];
    assert Units([Item("a", 5)], "a") == 5;
    assert [r][1..] == [];
    assert StatusUnits([r], Held, "a") == 5;
    assert Adjusted(s, "a", -5).stock["a"] == Level(0, 5);
  }

  lemma SeedKeeps(s: Store, p: string, onHand: nat)
    requires Accounted(s)
    ensures Accounted(Seeded(s, p, onHand))
    ensures NoOversell(s) ==> NoOversell(Seeded(s, p, onHand))
    ensures Announced(s) ==> Announced(Seeded(s, p, onHand))
  {
    if p !in s.stock {
      NothingHeldWithoutStock(s, p);
      var t := Seeded(s, p, onHand);
      forall id | IsHeld(t, id) ensures AllStocked(t.stock, t.reservations[id].items) {
        assert IsHeld(s, id);
      }
    }
  }

  // ---- runs -----------------------------------------------------------------------------------

  /** The sweeper releases and announces in separate transactions; between them it remembers what it released. */
  datatype System = System(store: Store, toAnnounce: set<nat>)

  datatype Op =
    | Seed(productId: string, onHand: nat)
    | Adjust(productId: string, delta: int)
    | Reserve(orderRef: nat, items: seq<Item>, expiresAt: int)
    | Finish(id: nat, commit: bool)
    | SweepRelease(id: nat)
    | Announce(id: nat)

  function Step(y: System, op: Op): System {
    match op
    case Seed(p, n) => y.(store := Seeded(y.store, p, n))
    case Adjust(p, delta) => y.(store := Adjusted(y.store, p, delta))
    case Reserve(o, items, at) => y.(store := Reserved(y.store, o, items, at))
    case Finish(id, commit) => y.(store := Finished(y.store, id, commit))
    case SweepRelease(id) =>
      var t := Finished(y.store, id, false);
      if id < |t.reservations| && t.reservations[id].status != Held then System(t, y.toAnnounce + {id}) else y.(store := t)
    case Announce(id) =>
      if id in y.toAnnounce then System(WithExpired(y.store, id), y.toAnnounce - {id}) else y
  }

  function Run(y: System, ops: seq<Op>): System
    decreases |ops|
  {
    if ops == [] then y else Run(Step(y, ops[0]), ops[1..])
  }

  ghost predicate Sound(y: System) {
    && Accounted(y.store) && Announced(y.store)
    && forall id :: id in y.toAnnounce ==> id < |y.store.reservations| && y.store.reservations[id].status != Held
  }

  /** A reservation that has left HELD never changes again. */
  lemma StepKeepsSettled(y: System, op: Op, id: nat)
    requires id < |y.store.reservations|
    ensures id < |Step(y, op).store.reservations|
    ensures y.store.reservations[id].status != Held ==> Step(y, op).store.reservations[id] == y.store.reservations[id]
    ensures Step(y, op).store.reservations[id] == y.store.reservations[id].(status := Step(y, op).store.reservations[id].status)
  {
  }

  lemma StepKeepsSound(y: System, op: Op)
    requires Sound(y)
    ensures Sound(Step(y, op))
  {
    match op {
      case Seed(p, n) => SeedKeeps(y.store, p, n);
      case Adjust(p, delta) => AdjustKeeps(y.store, p, delta);
      case Reserve(o, items, at) => ReserveKeeps(y.store, o, items, at);
      case Finish(id, commit) => FinishKeeps(y.store, id, commit);
      case SweepRelease(id) => FinishKeeps(y.store, id, false);
      case Announce(id) =>
        if id in y.toAnnounce {
          var t := WithExpired(y.store, id);
          forall k | IsHeld(t, k) ensures AllStocked(t.stock, t.reservations[k].items) {
            assert IsHeld(y.store, k);
          }
        }
    }
    forall id | id in Step(y, op).toAnnounce
      ensures id < |Step(y, op).store.reservations| && Step(y, op).store.reservations[id].status != Held
    {
      if id in y.toAnnounce {
        StepKeepsSettled(y, op, id);
      }
    }
  }

  /** Reservation accounting over every run: reserved is the sum of HELD quantities, and announcements are true. */
  lemma {:induction false} RunKeepsSound(y: System, ops: seq<Op>)
    requires Sound(y)
    ensures Sound(Run(y, ops))
    decreases |ops|
  {
    if ops != [] {
      StepKeepsSound(y, ops[0]);
      RunKeepsSound(Step(y, ops[0]), ops[1..]);
    }
  }

  /** Over a whole run a reservation leaves HELD at most once. */
  lemma {:induction false} LeavesHeldOnce(y: System, ops: seq<Op>, id: nat)
    requires id < |y.store.reservations| && y.store.reservations[id].status != Held
    ensures id < |Run(y, ops).store.reservations| && Run(y, ops).store.reservations[id] == y.store.reservations[id]
    decreases |ops|
  {
    if ops != [] {
      StepKeepsSettled(y, ops[0], id);
      LeavesHeldOnce(Step(y, ops[0]), ops[1..], id);
    }
  }

  /** Units a step adds to a product from outside: a first seed, or an adjustment. */
  function Supplied(y: System, op: Op, p: string): int {
    match op
    case Seed(q, n) => if q == p && p !in y.store.stock then n else 0
    case Adjust(q, delta) => if q == p then delta else 0
    case _ => 0
  }

  function SuppliedBy(y: System, ops: seq<Op>, p: string): int
    decreases |ops|
  {
    if ops == [] then 0 else Supplied(y, ops[0], p) + SuppliedBy(Step(y, ops[0]), ops[1..], p)
  }

  ghost predicate AdjustmentsSafe(y: System, ops: seq<Op>)
    decreases |ops|
  {
    ops == [] || ((ops[0].Adjust? ==> AdjustSafe(y.store, ops[0].productId, ops[0].delta))
                  && AdjustmentsSafe(Step(y, ops[0]), ops[1..]))
  }

  function OnHand(s: Store, p: string): int {
    if p in s.stock then s.stock[p].onHand else 0
  }

  lemma StepConserves(y: System, op: Op, p: string)
    requires Sound(y) && NoOversell(y.store)
    requires op.Adjust? ==> AdjustSafe(y.store, op.productId, op.delta)
    ensures NoOversell(Step(y, op).store)
    ensures var t := Step(y, op).store;
            OnHand(t, p) + StatusUnits(t.reservations, Committed, p) ==
            OnHand(y.store, p) + StatusUnits(y.store.reservations, Committed, p) + Supplied(y, op, p)
  {
    var s := y.store;
    match op {
      case Seed(q, n) => SeedKeeps(s, q, n);
      case Adjust(q, delta) =>
        AdjustKeeps(s, q, delta);
        StatusUnitsBounds(s.reservations, Held, q);
      case Reserve(o, items, at) =>
        ReserveKeeps(s, o, items, at);
        StatusUnitsPush(s.reservations, Reservation(o, items, Held, at), Committed, p);
      case Finish(id, commit) => FinishConserves(s, id, commit, p);
      case SweepRelease(id) => FinishConserves(s, id, false, p);
      case Announce(id) =>
    }
  }

  lemma FinishConserves(s: Store, id: nat, commit: bool, p: string)
    requires Accounted(s) && NoOversell(s)
    ensures NoOversell(Finished(s, id, commit))
    ensures var t := Finished(s, id, commit);
            OnHand(t, p) + StatusUnits(t.reservations, Committed, p) ==
            OnHand(s, p) + StatusUnits(s.reservations, Committed, p)
  {
    FinishKeeps(s, id, commit);
    if IsHeld(s, id) {
      var items := s.reservations[id].items;
      StatusUnitsUpdate(s.reservations, id, if commit then Committed else Released, Committed, p);
      if p in s.stock {
        FinishExact(s, id, commit, p);
      } else {
        TakenKeys(s.stock, items, commit);
        UnitsBounds(items, p);
        assert !Repeats(items, p);
      }
    }
  }

  /**
   No oversell: on every run whose adjustments leave on_hand at or above reserved, reserved never exceeds
   on_hand, and on_hand is what was there plus what was supplied less what was committed.
   */
  lemma {:induction false} RunConserves(y: System, ops: seq<Op>, p: string)
    requires Sound(y) && NoOversell(y.store) && AdjustmentsSafe(y, ops)
    ensures NoOversell(Run(y, ops).store)
    ensures var t := Run(y, ops).store;
            OnHand(t, p) == OnHand(y.store, p) + SuppliedBy(y, ops, p)
                            - (StatusUnits(t.reservations, Committed, p) - StatusUnits(y.store.reservations, Committed, p))
    decreases |ops|
  {
    if ops != [] {
      StepConserves(y, ops[0], p);
      StepKeepsSound(y, ops[0]);
      RunConserves(Step(y, ops[0]), ops[1..], p);
    }
  }

  /** Adjustments that are never negative are always safe. */
  lemma {:induction false} NonNegativeAdjustmentsAreSafe(y: System, ops: seq<Op>)
    requires Sound(y) && NoOversell(y.store)
    requires forall k :: 0 <= k < |ops| && ops[k].Adjust? ==> ops[k].delta >= 0
    ensures AdjustmentsSafe(y, ops)
    decreases |ops|
  {
    if ops != [] {
      assert ops[0].Adjust? ==> ops[0].delta >= 0;
      StepConserves(y, ops[0], "");
      StepKeepsSound(y, ops[0]);
      NonNegativeAdjustmentsAreSafe(Step(y, ops[0]), ops[1..]);
    }
  }
}
