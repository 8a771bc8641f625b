/**
 The inventory service: stock levels, reservations and their expiry.

 Reservation ids are positions in the append-only reservations table. reservation_items has a
 primary key on (reservation, product) and a check that quantities are positive, so a request
 repeating a product, or asking for none, fails on insert.
 */
module Inventory {
  import opened Base

  datatype Level = Level(onHand: int, reserved: int)

  datatype Status = Held | Committed | Released

  datatype Item = Item(productId: string, quantity: int)

  datatype Reservation = Reservation(orderRef: nat, items: seq<Item>, status: Status, expiresAt: int)

  datatype Expired = Expired(reservation: nat, orderRef: nat)

  /** stock, reservations and the reservation_expired rows of the outbox. */
  datatype Store = Store(stock: map<string, Level>, reservations: seq<Reservation>, expired: seq<Expired>)

  datatype Reason = InsufficientStock | DbError

  function Available(l: Level): int {
    l.onHand - l.reserved
  }

  /** Units of a product among items. */
  function Units(items: seq<Item>, productId: string): int {
    if items == [] then 0
    else Units(items[..|items| - 1], productId)
         + (if items[|items| - 1].productId == productId then items[|items| - 1].quantity else 0)
  }

  predicate Repeats(items: seq<Item>, productId: string) {
    exists i :: 0 <= i < |items| && items[i].productId == productId
  }

  // ---- Reserve -----------------------------------------------------------------

  /** Why the transaction fails at its last line, given that the earlier ones went through. */
  function LineRefusal(stock: map<string, Level>, before: seq<Item>, it: Item): Option<Reason> {
    if it.productId !in stock then Some(InsufficientStock)
    else if Available(stock[it.productId]) - Units(before, it.productId) < it.quantity then Some(InsufficientStock)
    else if it.quantity <= 0 || Repeats(before, it.productId) then Some(DbError)
    else None
  }

  function ReserveRefusal(stock: map<string, Level>, items: seq<Item>): Option<Reason> {
    if items == [] then None
    else
      var n := |items| - 1;
      var earlier := ReserveRefusal(stock, items[..n]);
      if earlier.Some? then earlier else LineRefusal(stock, items[..n], items[n])
  }

  /** The stock with the items' units added to what is reserved. */
  function Holding(stock: map<string, Level>, items: seq<Item>): (r: map<string, Level>) {
    map p | p in stock :: Level(stock[p].onHand, stock[p].reserved + Units(items, p))
  }

  function Reserved(s: Store, orderRef: nat, items: seq<Item>, expiresAt: int): Store {
    if ReserveRefusal(s.stock, items).Some? then s
    else s.(stock := Holding(s.stock, items),
            reservations := s.reservations + [Reservation(orderRef, items, Held, expiresAt)])
  }

  // ---- Commit and Release --------------------------------------------------------

  predicate IsHeld(s: Store, id: int) {
    0 <= id < |s.reservations| && s.reservations[id].status == Held
  }

  function ClampedTake(l: Level, qty: int, commit: bool): Level {
    var nr := l.reserved - qty;
    var nh := if commit then l.onHand - qty else l.onHand;
    Level(if nh < 0 then 0 else nh, if nr < 0 then 0 else nr)
  }

  /** The stock after the items were taken off one by one, clamping at zero each time. */
  function Taken(stock: map<string, Level>, items: seq<Item>, commit: bool): map<string, Level> {
    if items == [] then stock
    else
      var t := Taken(stock, items[..|items| - 1], commit);
      var it := items[|items| - 1];
      if it.productId !in t then t else t[it.productId := ClampedTake(t[it.productId], it.quantity, commit)]
  }

  predicate AllStocked(stock: map<string, Level>, items: seq<Item>) {
    forall i :: 0 <= i < |items| ==> items[i].productId in stock
  }

  /** Commit or Release of a reservation: nothing unless it is HELD and all its products have stock rows. */
  function Finished(s: Store, id: nat, commit: bool): Store {
    if !IsHeld(s, id) || !AllStocked(s.stock, s.reservations[id].items) then s
    else
      var r := s.reservations[id];
      s.(stock := Taken(s.stock, r.items, commit),
         reservations := s.reservations[id := r.(status := if commit then Committed else Released)])
  }

  // ---- other writes ----------------------------------------------------------------

  function Max0(x: int): int {
    if x < 0 then 0 else x
  }

  function Adjusted(s: Store, productId: string, delta: int): Store {
    var l := if productId in s.stock then Level(Max0(s.stock[productId].onHand + delta), s.stock[productId].reserved)
             else Level(Max0(delta), 0);
    s.(stock := s.stock[productId := l])
  }

  function Seeded(s: Store, productId: string, onHand: nat): Store {
    if productId in s.stock then s else s.(stock := s.stock[productId := Level(onHand, 0)])
  }

  function WithExpired(s: Store, id: nat): Store {
    if id >= |s.reservations| then s
    else s.(expired := s.expired + [Expired(id, s.reservations[id].orderRef)])
  }

  /** The reservations a sweep picks: HELD and past their expiry. */
  predicate Due(s: Store, id: int, now: int) {
    IsHeld(s, id) && s.reservations[id].expiresAt < now
  }

  /** Releasing and announcing each of the picked reservations in turn. */
  function Swept(s: Store, due: seq<nat>): Store {
    if due == [] then s
    else WithExpired(Finished(Swept(s, due[..|due| - 1]), due[|due| - 1], false), due[|due| - 1])
  }

  // ---- the store -----------------------------------------------------------------------

  class InventoryStore {
    var stock: map<string, Level>
    var reservations: seq<Reservation>
    var expired: seq<Expired>

    function State(): Store
      reads this
    {
      Store(stock, reservations, expired)
    }

    constructor ()
      ensures State() == Store(map[], [], [])
    {
      stock, reservations, expired := map[], [], [];
    }

    method EnsureStockRow(productId: string, onHand: nat)
      modifies this
      ensures State() == Seeded(old(State()), productId, onHand)
    {
      if productId !in stock {
        stock := stock[productId := Level(onHand, 0)];
      }
    }

    method AdjustStock(productId: string, delta: int) returns (l: Level)
      modifies this
      ensures State() == Adjusted(old(State()), productId, delta)
      ensures l == State().stock[productId]
    {
      if productId in stock {
        l := Level(Max0(stock[productId].onHand + delta), stock[productId].reserved);
      } else {
        l := Level(Max0(delta), 0);
      }
      stock := stock[productId := l];
    }

    /** Holds stock line by line; the first line that cannot be met fails the lot. */
    method HoldLines(items: seq<Item>) returns (r: Result<map<string, Level>, Reason>)
      ensures r == match ReserveRefusal(stock, items)
                   case Some(why) => Err(why)
                   case None => Ok(Holding(stock, items))
    {
      var tx := stock;
      var rows: seq<Item> := [];
      var i := 0;
      HoldingNothing(stock);
      while i < |items|
        invariant 0 <= i <= |items|
        invariant rows == items[..i]
        invariant ReserveRefusal(stock, items[..i]) == None
        invariant tx == Holding(stock, items[..i])
      {
        var it := items[i];
        LineDecides(stock, items, i);
        if it.productId !in tx {
          return Err(InsufficientStock);
        }
        var l := tx[it.productId];
        if Available(l) < it.quantity {
          return Err(InsufficientStock);
        }
        // the insert of the item row
        if it.quantity <= 0 || exists k :: 0 <= k < |rows| && rows[k].productId == it.productId {
          return Err(DbError);
        }
        HoldingNext(stock, items, i);
        tx := tx[it.productId := Level(l.onHand, l.reserved + it.quantity)];
        rows := rows + [it];
        i := i + 1;
      }
      assert items[..i] == items;
      r := Ok(tx);
    }

    /** One transaction: either every line is held and the reservation written, or nothing happens. */
    method Reserve(orderRef: nat, items: seq<Item>, expiresAt: int) returns (r: Result<nat, Reason>)
      modifies this
      ensures State() == Reserved(old(State()), orderRef, items, expiresAt)
      ensures r == match ReserveRefusal(old(stock), items)
                   case Some(why) => Err(why)
                   case None => Ok(old(|reservations|))
    {
      var held := HoldLines(items);
      if held.Err? {
        return Err(held.reason);
      }
      stock := held.value;
      reservations := reservations + [Reservation(orderRef, items, Held, expiresAt)];
      r := Ok(|reservations| - 1);
    }

    /** Commit and Release share this transaction; a missing stock row rolls it back. */
    method Finish(id: nat, commit: bool) returns (ok: bool)
      modifies this
      ensures State() == Finished(old(State()), id, commit)
      ensures ok <==> !(old(IsHeld(State(), id)) && !old(AllStocked(stock, reservations[id].items)))
    {
      if id >= |reservations| || reservations[id].status != Held {
        return true;
      }
      var items := reservations[id].items;
      var tx := stock;
      var i := 0;
      while i < |items|
        invariant 0 <= i <= |items|
        invariant tx == Taken(stock, items[..i], commit) && tx.Keys == stock.Keys
        invariant AllStocked(stock, items[..i])
      {
        var it := items[i];
        assert items[..i + 1][..i] == items[..i];
        if it.productId !in tx {
          return false;
        }
        var nr := tx[it.productId].reserved - it.quantity;
        var nh := if commit then tx[it.productId].onHand - it.quantity else tx[it.productId].onHand;
        if nr < 0 {
          nr := 0;
        }
        if nh < 0 {
          nh := 0;
        }
        tx := tx[it.productId := Level(nh, nr)];
        i := i + 1;
      }
      assert items[..i] == items;
      stock := tx;
      reservations := reservations[id := reservations[id].(status := if commit then Committed else Released)];
      ok := true;
    }

    method Commit(id: nat) returns (ok: bool)
      modifies this
      ensures State() == Finished(old(State()), id, true)
      ensures ok <==> !(old(IsHeld(State(), id)) && !old(AllStocked(stock, reservations[id].items)))
    {
      ok := Finish(id, true);
    }

    method Release(id: nat) returns (ok: bool)
      modifies this
      ensures State() == Finished(old(State()), id, false)
      ensures ok <==> !(old(IsHeld(State(), id)) && !old(AllStocked(stock, reservations[id].items)))
    {
      ok := Finish(id, false);
    }

    /**
     Picks up to limit due reservations, the longest due first, then releases and announces them one at a time,
     giving up at the first release or announcement that fails; it reports how many it did, or none if it gave up.
     announces says which announcements land.
     */
    method ExpireDue(now: int, limit: nat, announces: nat -> bool) returns (swept: nat, ok: bool, ghost due: seq<nat>, ghost done: nat)
      modifies this
      ensures IsDueList(old(State()), now, limit, due)
      ensures forall k :: 0 <= k < |due| ==>
                due[k] < |old(reservations)| && old(reservations)[due[k]].status == Held && old(reservations)[due[k]].expiresAt < now
      ensures |due| < limit ==> forall id: nat :: id < |old(reservations)| && id !in due ==>
                old(reservations)[id].status != Held || old(reservations)[id].expiresAt >= now
      ensures ok ==> done == |due| == swept && State() == Swept(old(State()), due)
      ensures !ok ==> swept == 0 && done < |due|
                      && var s := Swept(old(State()), due[..done]);
                         if IsHeld(s, due[done]) && !AllStocked(s.stock, s.reservations[due[done]].items) then State() == s
                         else !announces(due[done]) && State() == Finished(s, due[done], false)
    {
      var picked := PickDue(now, limit);
      due := picked;
      var k := 0;
      done := 0;
      while k < |picked|
        invariant done == k <= |picked|
        invariant State() == Swept(old(State()), picked[..k])
        invariant |reservations| == old(|reservations|)
      {
        assert picked[..k + 1][..k] == picked[..k];
        assert Due(old(State()), picked[k], now);
        ok := Release(picked[k]);
        if !ok || !announces(picked[k]) {
          return 0, false, due, done;
        }
        expired := expired + [Expired(picked[k], reservations[picked[k]].orderRef)];
        k := k + 1;
        done := k;
      }
      assert picked[..k] == picked;
      swept, ok := |picked|, true;
    }

    /** The sweep's query. */
    method PickDue(now: int, limit: nat) returns (out: seq<nat>)
      ensures IsDueList(State(), now, limit, out)
    {
      var left := set id | 0 <= id < |reservations| && reservations[id].status == Held && reservations[id].expiresAt < now;
      out := [];
      while left != {} && |out| < limit
        invariant |out| <= limit
        invariant PartlyPicked(State(), now, out, left)
        decreases left
      {
        ghost var oldest := LongestDue(reservations, left);
        var id :| id in left && forall k :: k in left ==> reservations[id].expiresAt <= reservations[k].expiresAt;
        PickNext(State(), now, out, left, id);
        out := out + [id];
        left := left - {id};
      }
    }
  }

  // ---- the order of an expiry sweep ------------------------------------------------------

  /** Due reservations, each once, the longest due first, and all of them unless cut off by the limit. */
  ghost predicate IsDueList(s: Store, now: int, limit: nat, due: seq<nat>) {
    && |due| <= limit
    && (forall k :: 0 <= k < |due| ==> Due(s, due[k], now))
    && (forall j, k :: 0 <= j < k < |due| ==>
          due[j] != due[k] && s.reservations[due[j]].expiresAt <= s.reservations[due[k]].expiresAt)
    && (forall id :: Due(s, id, now) && id !in due ==>
          |due| == limit && forall k :: 0 <= k < |due| ==> s.reservations[due[k]].expiresAt <= s.reservations[id].expiresAt)
  }

  /** Part way: out holds the longest due in order, left the others. */
  ghost predicate PartlyPicked(s: Store, now: int, out: seq<nat>, left: set<nat>) {
    && (forall id :: id in left ==> Due(s, id, now))
    && (forall k :: 0 <= k < |out| ==> Due(s, out[k], now))
    && (forall j, k :: 0 <= j < k < |out| ==>
          out[j] != out[k] && s.reservations[out[j]].expiresAt <= s.reservations[out[k]].expiresAt)
    && (forall k, id :: 0 <= k < |out| && id in left ==>
          out[k] != id && s.reservations[out[k]].expiresAt <= s.reservations[id].expiresAt)
    && (forall id :: Due(s, id, now) ==> id in left || id in out)
  }

  lemma PickNext(s: Store, now: int, out: seq<nat>, left: set<nat>, id: nat)
    requires PartlyPicked(s, now, out, left) && id in left
    requires forall k :: k in left ==> k < |s.reservations| && s.reservations[id].expiresAt <= s.reservations[k].expiresAt
    ensures PartlyPicked(s, now, out + [id], left - {id})
  {
    var more := out + [id];
    assert forall k :: 0 <= k < |out| ==> more[k] == out[k];
    assert forall k :: k in out || k == id ==> k in more;
  }

  lemma {:induction false} LongestDue(rs: seq<Reservation>, ids: set<nat>) returns (id: nat)
    requires ids != {} && forall k :: k in ids ==> k < |rs|
    ensures id in ids && forall k :: k in ids ==> rs[id].expiresAt <= rs[k].expiresAt
    decreases ids
  {
    var x :| x in ids;
    if ids == {x} {
      id := x;
    } else {
      var y := LongestDue(rs, ids - {x});
      id := if rs[x].expiresAt <= rs[y].expiresAt then x else y;
    }
  }

  /** One more line adds its quantity to one level. */
  lemma HoldingNext(stock: map<string, Level>, items: seq<Item>, i: nat)
    requires i < |items| && items[i].productId in stock
    ensures var l := Holding(stock, items[..i])[items[i].productId];
            Holding(stock, items[..i + 1]) ==
            Holding(stock, items[..i])[items[i].productId := Level(l.onHand, l.reserved + items[i].quantity)]
  {
    assert items[..i + 1][..i] == items[..i];
  }

  lemma HoldingNothing(stock: map<string, Level>)
    ensures Holding(stock, []) == stock
  {
  }

  /** After good lines the next one decides, and a refusal stands whatever follows. */
  lemma LineDecides(stock: map<string, Level>, items: seq<Item>, i: nat)
    requires i < |items| && ReserveRefusal(stock, items[..i]) == None
    ensures ReserveRefusal(stock, items[..i + 1]) == LineRefusal(stock, items[..i], items[i])
    ensures LineRefusal(stock, items[..i], items[i]).Some? ==>
              ReserveRefusal(stock, items) == LineRefusal(stock, items[..i], items[i])
  {
    assert items[..i + 1][..i] == items[..i];
    if LineRefusal(stock, items[..i], items[i]).Some? {
      RefusalStands(stock, items, i + 1);
    }
  }

  /** A transaction that failed at some line fails as a whole. */
  lemma {:induction false} RefusalStands(stock: map<string, Level>, items: seq<Item>, k: nat)
    requires k <= |items| && ReserveRefusal(stock, items[..k]).Some?
    ensures ReserveRefusal(stock, items) == ReserveRefusal(stock, items[..k])
    decreases |items|
  {
    if k < |items| {
      var n := |items| - 1;
      assert items[..n][..k] == items[..k];
      RefusalStands(stock, items[..n], k);
    } else {
      assert items[..k] == items;
    }
  }

  /** A sweep announces each reservation it releases, in order, with the order it was for. */
  lemma {:induction false} SweptAnnounces(s: Store, due: seq<nat>)
    requires forall k :: 0 <= k < |due| ==> due[k] < |s.reservations|
    ensures var t := Swept(s, due);
            && |t.reservations| == |s.reservations|
            && (forall id :: 0 <= id < |s.reservations| ==> t.reservations[id].orderRef == s.reservations[id].orderRef)
            && |t.expired| == |s.expired| + |due| && t.expired[..|s.expired|] == s.expired
            && (forall k :: 0 <= k < |due| ==> t.expired[|s.expired| + k] == Expired(due[k], s.reservations[due[k]].orderRef))
  {
    if due != [] {
      var n := |due| - 1;
      SweptAnnounces(s, due[..n]);
      var before := Swept(s, due[..n]);
      assert Swept(s, due).expired == before.expired + [Expired(due[n], s.reservations[due[n]].orderRef)];
    }
  }

  lemma {:induction false} TakenKeys(stock: map<string, Level>, items: seq<Item>, commit: bool)
    ensures Taken(stock, items, commit).Keys == stock.Keys
  {
    if items != [] {
      TakenKeys(stock, items[..|items| - 1], commit);
    }
  }
}
