/**
 Checkout idempotency keys: the statements that act on the table, and what holds when many
 checkouts run them interleaved. Times are in seconds on one clock.
 */
module Idempotency {
  import opened Base

  const STALE_IN_FLIGHT_AFTER: int := 15 * 60

  datatype Status = InFlight | Completed

  datatype Row = Row(owner: string, request: string, status: Status, orderId: Option<nat>, createdAt: int)

  type Keys = map<string, Row>

  // ---- one statement each ---------------------------------------------------------

  /** INSERT ... ON CONFLICT DO NOTHING. */
  function Inserted(keys: Keys, key: string, owner: string, request: string, now: int): Keys {
    if key in keys then keys else keys[key := Row(owner, request, InFlight, None, now)]
  }

  predicate CanTakeOver(keys: Keys, key: string, now: int) {
    key in keys && keys[key].status == InFlight && keys[key].createdAt < now - STALE_IN_FLIGHT_AFTER
  }

  function TakenOver(keys: Keys, key: string, now: int): Keys {
    if CanTakeOver(keys, key, now) then keys[key := keys[key].(createdAt := now)] else keys
  }

  function Released(keys: Keys, key: string): Keys {
    if key in keys && keys[key].status == InFlight then keys - {key} else keys
  }

  predicate PastUse(row: Row, retain: int, now: int) {
    || (row.status == Completed && row.createdAt < now - retain)
    || (row.status == InFlight && row.createdAt < now - STALE_IN_FLIGHT_AFTER)
  }

  function Reaped(keys: Keys, retain: int, now: int): Keys {
    map k | k in keys && !PastUse(keys[k], retain, now) :: keys[k]
  }

  predicate CanComplete(keys: Keys, key: string) {
    key in keys && keys[key].status == InFlight
  }

  /** Closes the key on its order, in the transaction that inserts the order. */
  function Closed(keys: Keys, key: string, orderId: nat): Keys {
    if CanComplete(keys, key) then keys[key := keys[key].(status := Completed, orderId := Some(orderId))] else keys
  }

  // ---- the claim -----------------------------------------------------------------------

  datatype Claim = Claimed | Replay(orderId: nat) | Busy | Reused

  datatype Look = Settled(claim: Claim) | TryTakeOver

  /** What a claim that lost the insert concludes from the row it reads. */
  function Concluded(keys: Keys, key: string, owner: string, request: string, now: int): Look {
    if key !in keys then Settled(Busy)
    else
      var row := keys[key];
      if row.owner != owner || row.request != request then Settled(Reused)
      else if row.status == Completed && row.orderId.Some? then Settled(Replay(row.orderId.value))
      else if now - row.createdAt < STALE_IN_FLIGHT_AFTER then Settled(Busy)
      else TryTakeOver
  }

  /** Whether a claim run in one piece gets the key. */
  predicate GetsKey(keys: Keys, key: string, owner: string, request: string, now: int) {
    key !in keys || (Concluded(keys, key, owner, request, now) == TryTakeOver && CanTakeOver(keys, key, now))
  }

  /** The table once a claim got the key. */
  function Held(keys: Keys, key: string, owner: string, request: string, now: int): Keys {
    keys[key := Row(owner, request, InFlight, if key in keys then keys[key].orderId else None, now)]
  }

  class KeyTable {
    var keys: Keys

    constructor ()
      ensures keys == map[]
    {
      keys := map[];
    }

    /** The whole claim, run with nothing in between its statements. */
    method ClaimIdempotencyKey(key: string, owner: string, request: string, now: int) returns (r: Claim)
      modifies this
      ensures r == Claimed <==> GetsKey(old(keys), key, owner, request, now)
      ensures r == Claimed ==> keys == Held(old(keys), key, owner, request, now)
      ensures r != Claimed ==> keys == old(keys)
      ensures r != Claimed ==> r == match old(Concluded(keys, key, owner, request, now)) case Settled(c) => c case TryTakeOver => Busy
      ensures r == Claimed ==>
        keys == if old(key !in keys) then Inserted(old(keys), key, owner, request, now) else TakenOver(old(keys), key, now)
      ensures r.Replay? ==> key in keys && keys[key].owner == owner && keys[key].request == request
                            && keys[key].status == Completed && keys[key].orderId == Some(r.orderId)
      ensures r == Reused <==> old(key in keys && (keys[key].owner != owner || keys[key].request != request))
      ensures r == Claimed <==>
                key !in old(keys)
                || (&& old(keys)[key].owner == owner && old(keys)[key].request == request
                    && old(keys)[key].status == InFlight && old(keys)[key].createdAt < now - 900)
      ensures r == Claimed ==>
                && keys.Keys == old(keys).Keys + {key} && (forall k :: k in old(keys) && k != key ==> keys[k] == old(keys)[k])
                && keys[key].owner == owner && keys[key].request == request && keys[key].status == InFlight && keys[key].createdAt == now
      ensures r.Replay? <==>
                && key in old(keys) && old(keys)[key].owner == owner && old(keys)[key].request == request
                && old(keys)[key].status == Completed && old(keys)[key].orderId.Some?
    {
      if key !in keys {
        keys := keys[key := Row(owner, request, InFlight, None, now)];
        return Claimed;
      }
      var row := keys[key];
      if row.owner != owner || row.request != request {
        return Reused;
      }
      if row.status == Completed && row.orderId.Some? {
        return Replay(row.orderId.value);
      }
      if now - row.createdAt < STALE_IN_FLIGHT_AFTER {
        return Busy;
      }
      if !(row.status == InFlight && row.createdAt < now - STALE_IN_FLIGHT_AFTER) {
        return Busy;
      }
      keys := keys[key := row.(createdAt := now)];
      r := Claimed;
    }

    method ReleaseIdempotencyKey(key: string)
      modifies this
      ensures keys == if key == "" then old(keys) else Released(old(keys), key)
      ensures keys == if key != "" && key in old(keys) && old(keys)[key].status == InFlight then old(keys) - {key} else old(keys)
    {
      if key != "" && key in keys && keys[key].status == InFlight {
        keys := keys - {key};
      }
    }

    method ReapIdempotencyKeys(retain: int, now: int) returns (n: nat)
      modifies this
      ensures keys == Reaped(old(keys), retain, now)
      ensures forall k :: k in keys ==> k in old(keys) && keys[k] == old(keys)[k]
      ensures forall k :: k in old(keys) && old(keys)[k].status == Completed ==> (k in keys <==> now - old(keys)[k].createdAt <= retain)
      ensures forall k :: k in old(keys) && old(keys)[k].status == InFlight ==> (k in keys <==> now - old(keys)[k].createdAt <= 900)
      ensures n == |old(keys)| - |keys|
    {
      var doomed := set k | k in keys && PastUse(keys[k], retain, now);
      n := |doomed|;
      assert doomed <= keys.Keys;
      assert (keys - doomed).Keys == keys.Keys - doomed;
      keys := keys - doomed;
    }
  }

  // ---- the fingerprint --------------------------------------------------------------------

  const SEPARATOR: char := 0 as char

  /** The hashed text: each part followed by a NUL, then the total, which checkout passes as 0. */
  function FingerprintText(owner: string, cart: string, currency: string, coupon: string): string {
    owner + [SEPARATOR] + cart + [SEPARATOR] + currency + [SEPARATOR] + coupon + [SEPARATOR] + "0"
  }

  /** The separator does its work: texts agree only when every part does, as long as no part holds a NUL. */
  lemma FingerprintInjective(o: string, c: string, u: string, p: string, o': string, c': string, u': string, p': string)
    requires forall s :: s in {o, c, u, p, o', c', u', p'} ==> SEPARATOR !in s
    ensures FingerprintText(o, c, u, p) == FingerprintText(o', c', u', p') <==> o == o' && c == c' && u == u' && p == p'
  {
    if FingerprintText(o, c, u, p) == FingerprintText(o', c', u', p') {
      var z: string := [SEPARATOR];
      var x3, y3 := p + z + "0", p' + z + "0";
      var x2, y2 := u + z + x3, u' + z + y3;
      var x1, y1 := c + z + x2, c' + z + y2;
      assert FingerprintText(o, c, u, p) == o + z + x1;
      assert FingerprintText(o', c', u', p') == o' + z + y1;
      SplitAt(SEPARATOR, o, x1, o', y1);
      SplitAt(SEPARATOR, c, x2, c', y2);
      SplitAt(SEPARATOR, u, x3, u', y3);
      SplitAt(SEPARATOR, p, "0", p', "0");
    }
  }

  // ---- any interleaving at all ------------------------------------------------------------------

  /** The table, with the orders committed and the completed rows reaped so far, by key. */
  datatype Book = Book(keys: Keys, placed: multiset<string>, reaped: multiset<string>)

  datatype Stmt =
    | Insert(key: string, owner: string, request: string, now: int)
    | TakeOver(key: string, now: int)
    | Release(key: string)
    | Reap(retain: int, now: int)
    | Complete(key: string, orderId: nat)

  function CompletedKeys(keys: Keys): set<string> {
    set k | k in keys && keys[k].status == Completed
  }

  function Exec(b: Book, s: Stmt): Book {
    match s
    case Insert(key, owner, request, now) => b.(keys := Inserted(b.keys, key, owner, request, now))
    case TakeOver(key, now) => b.(keys := TakenOver(b.keys, key, now))
    case Release(key) => b.(keys := Released(b.keys, key))
    case Reap(retain, now) =>
      var left := Reaped(b.keys, retain, now);
      Book(left, b.placed, b.reaped + multiset(CompletedKeys(b.keys) - CompletedKeys(left)))
    case Complete(key, orderId) =>
      if CanComplete(b.keys, key) then Book(Closed(b.keys, key, orderId), b.placed + multiset{key}, b.reaped) else b
  }

  function ExecAll(b: Book, ss: seq<Stmt>): Book
    decreases |ss|
  {
    if ss == [] then b else ExecAll(Exec(b, ss[0]), ss[1..])
  }

  ghost predicate Balanced(b: Book) {
    forall k :: b.placed[k] == b.reaped[k] + (if k in CompletedKeys(b.keys) then 1 else 0)
  }

  lemma ReapKeepsBalanced(b: Book, retain: int, now: int)
    requires Balanced(b)
    ensures Balanced(Exec(b, Reap(retain, now)))
  {
    var c := Exec(b, Reap(retain, now));
    var gone := CompletedKeys(b.keys) - CompletedKeys(c.keys);
    forall k ensures c.placed[k] == c.reaped[k] + (if k in CompletedKeys(c.keys) then 1 else 0) {
      assert b.placed[k] == b.reaped[k] + (if k in CompletedKeys(b.keys) then 1 else 0);
      assert multiset(gone)[k] == if k in gone then 1 else 0;
    }
  }

  lemma ExecKeepsBalanced(b: Book, s: Stmt)
    requires Balanced(b)
    ensures Balanced(Exec(b, s))
  {
    if s.Reap? {
      ReapKeepsBalanced(b, s.retain, s.now);
    } else {
      var c := Exec(b, s);
      forall k ensures c.placed[k] == c.reaped[k] + (if k in CompletedKeys(c.keys) then 1 else 0) {
        assert b.placed[k] == b.reaped[k] + (if k in CompletedKeys(b.keys) then 1 else 0);
      }
    }
  }

  /**
   Whatever statements run, in whatever interleaving and by whatever holders, the orders committed for a key
   number its completed rows reaped so far plus one if its current row is completed.
   */
  lemma {:induction false} OrdersPerKey(b: Book, ss: seq<Stmt>)
    requires Balanced(b)
    ensures Balanced(ExecAll(b, ss))
    decreases |ss|
  {
    if ss != [] {
      ExecKeepsBalanced(b, ss[0]);
      OrdersPerKey(Exec(b, ss[0]), ss[1..]);
    }
  }

  /** Between two reaps a key yields at most one order. */
  lemma {:induction false} OneOrderBetweenReaps(b: Book, ss: seq<Stmt>, key: string)
    requires Balanced(b)
    requires forall i :: 0 <= i < |ss| ==> !ss[i].Reap?
    ensures ExecAll(b, ss).reaped == b.reaped
    ensures ExecAll(b, ss).placed[key] <= b.placed[key] + 1
    ensures key in CompletedKeys(b.keys) ==> ExecAll(b, ss).placed[key] == b.placed[key]
    decreases |ss|
  {
    if ss != [] {
      ExecKeepsBalanced(b, ss[0]);
      assert !ss[0].Reap?;
      OneOrderBetweenReaps(Exec(b, ss[0]), ss[1..], key);
      OrdersPerKey(b, ss);
    }
  }

  // ---- what retention promises --------------------------------------------------------------------

  /** The time a statement runs at; to release or to complete it does not matter. */
  predicate During(s: Stmt, from: int, to: int) {
    match s
    case Insert(_, _, _, now) => from <= now <= to
    case TakeOver(_, now) => from <= now <= to
    case Reap(_, now) => from <= now <= to
    case _ => true
  }

  /** Statements that run within keep of a claim made at the given time, and reap only what is older than keep. */
  predicate WithinRetention(ss: seq<Stmt>, claimedAt: int, keep: int) {
    forall i :: 0 <= i < |ss| ==> During(ss[i], claimedAt, claimedAt + keep) && (ss[i].Reap? ==> ss[i].retain >= keep)
  }

  /** A key that is not held by an older claim. */
  predicate ClaimedSince(keys: Keys, key: string, claimedAt: int) {
    key in keys ==> keys[key].createdAt >= claimedAt
  }

  /** A completed row claimed no longer ago than that stays, and no statement places another order under its key. */
  lemma CompletedStays(b: Book, s: Stmt, key: string, claimedAt: int, keep: int)
    requires WithinRetention([s], claimedAt, keep) && ClaimedSince(b.keys, key, claimedAt)
    requires key in b.keys && b.keys[key].status == Completed
    ensures key in Exec(b, s).keys && Exec(b, s).keys[key] == b.keys[key] && Exec(b, s).placed[key] == b.placed[key]
  {
    assert [s][0] == s;
  }

  lemma OpenStaysRecent(b: Book, s: Stmt, key: string, claimedAt: int, keep: int)
    requires WithinRetention([s], claimedAt, keep) && ClaimedSince(b.keys, key, claimedAt)
    requires key in b.keys ==> b.keys[key].status == InFlight
    ensures ClaimedSince(Exec(b, s).keys, key, claimedAt)
    ensures Exec(b, s).placed[key] ==
            b.placed[key] + (if key in Exec(b, s).keys && Exec(b, s).keys[key].status == Completed then 1 else 0)
  {
    assert [s][0] == s;
  }

  /**
   Within the retention time of a claim, whatever statements run and however they interleave, the key yields at most
   one order; and once it has, its row keeps naming that order for that claim's owner and request.
   */
  lemma {:induction false} OneOrderWithinRetention(b: Book, ss: seq<Stmt>, key: string, claimedAt: int, keep: int)
    requires WithinRetention(ss, claimedAt, keep) && ClaimedSince(b.keys, key, claimedAt)
    ensures b.placed[key] <= ExecAll(b, ss).placed[key] <= b.placed[key] + 1
    ensures key in b.keys && b.keys[key].status == Completed ==>
              key in ExecAll(b, ss).keys && ExecAll(b, ss).keys[key] == b.keys[key] && ExecAll(b, ss).placed[key] == b.placed[key]
    decreases |ss|
  {
    if ss != [] {
      assert [ss[0]][0] == ss[0];
      var c := Exec(b, ss[0]);
      if key in b.keys && b.keys[key].status == Completed {
        CompletedStays(b, ss[0], key, claimedAt, keep);
      } else {
        OpenStaysRecent(b, ss[0], key, claimedAt, keep);
      }
      OneOrderWithinRetention(c, ss[1..], key, claimedAt, keep);
    }
  }

  /** A retry within the retention time of a claim that was completed inserts nothing, and is answered with the order. */
  lemma RetryIsReplayed(b: Book, ss: seq<Stmt>, key: string, keep: int, now: int)
    requires key in b.keys && b.keys[key].status == Completed && b.keys[key].orderId.Some?
    requires WithinRetention(ss, b.keys[key].createdAt, keep)
    ensures var row := b.keys[key];
            var keys := ExecAll(b, ss).keys;
            && Inserted(keys, key, row.owner, row.request, now) == keys
            && Concluded(keys, key, row.owner, row.request, now) == Settled(Replay(row.orderId.value))
  {
    OneOrderWithinRetention(b, ss, key, b.keys[key].createdAt, keep);
  }

  // ---- checkouts that stop acting in time -----------------------------------------------------------

  datatype Phase =
    | Claiming                   // about to insert
    | Looking                    // lost the insert, about to read the row
    | Expired                    // read a stale row, about to take it over
    | Holding(reserved: bool, paid: bool)
    | Over(replayed: Option<nat>)

  datatype Attempt = Attempt(key: string, owner: string, request: string, start: int, phase: Phase, claimedAt: int)

  datatype Placed = Placed(key: string, owner: string, request: string)

  datatype World = World(now: int, keys: Keys, orders: map<nat, Placed>, attempts: seq<Attempt>)

  datatype Act =
    | Tick(dt: nat)
    | Begin(key: string, owner: string, request: string)
    | DoInsert(a: nat)
    | DoLook(a: nat)
    | DoTakeOver(a: nat)
    | DoReserve(a: nat)
    | DoPay(a: nat)
    | DoPlace(a: nat, orderId: nat)
    | DoRelease(a: nat)
    | DoReap(retain: int)

  /** An attempt acts only within the staleness bound of its start. */
  predicate Acting(w: World, a: nat) {
    a < |w.attempts| && w.now <= w.attempts[a].start + STALE_IN_FLIGHT_AFTER
  }

  function With(w: World, a: nat, phase: Phase): World
    requires a < |w.attempts|
  {
    w.(attempts := w.attempts[a := w.attempts[a].(phase := phase)])
  }

  function Claims(w: World, a: nat): World
    requires a < |w.attempts|
  {
    w.(attempts := w.attempts[a := w.attempts[a].(phase := Holding(false, false), claimedAt := w.now)])
  }

  /** One step; a step its attempt is not at leaves the world alone. */
  function Next(w: World, act: Act): World {
    match act
    case Tick(dt) => w.(now := w.now + dt)
    case Begin(key, owner, request) =>
      w.(attempts := w.attempts + [Attempt(key, owner, request, w.now, Claiming, w.now)])
    case DoReap(retain) => w.(keys := Reaped(w.keys, retain, w.now))
    case DoInsert(a) =>
      if !Acting(w, a) || w.attempts[a].phase != Claiming then w
      else
        var t := w.attempts[a];
        if t.key in w.keys then With(w, a, Looking)
        else Claims(w, a).(keys := Inserted(w.keys, t.key, t.owner, t.request, w.now))
    case DoLook(a) =>
      if !Acting(w, a) || w.attempts[a].phase != Looking then w
      else
        var t := w.attempts[a];
        (match Concluded(w.keys, t.key, t.owner, t.request, w.now)
         case Settled(Replay(orderId)) => With(w, a, Over(Some(orderId)))
         case Settled(_) => With(w, a, Over(None))
         case TryTakeOver => With(w, a, Expired))
    case DoTakeOver(a) =>
      if !Acting(w, a) || w.attempts[a].phase != Expired then w
      else if CanTakeOver(w.keys, w.attempts[a].key, w.now) then
        Claims(w, a).(keys := TakenOver(w.keys, w.attempts[a].key, w.now))
      else With(w, a, Over(None))
    case DoReserve(a) =>
      if !Acting(w, a) || w.attempts[a].phase != Holding(false, false) then w else With(w, a, Holding(true, false))
    case DoPay(a) =>
      if !Acting(w, a) || w.attempts[a].phase != Holding(true, false) then w else With(w, a, Holding(true, true))
    case DoPlace(a, orderId) =>
      if !Acting(w, a) || w.attempts[a].phase != Holding(true, true) || orderId in w.orders
         || !CanComplete(w.keys, w.attempts[a].key) then w
      else
        var t := w.attempts[a];
        With(w, a, Over(None)).(keys := Closed(w.keys, t.key, orderId),
                                orders := w.orders[orderId := Placed(t.key, t.owner, t.request)])
    case DoRelease(a) =>
      if !Acting(w, a) || !w.attempts[a].phase.Holding? then w
      else With(w, a, Over(None)).(keys := Released(w.keys, w.attempts[a].key))
  }

  function RunAll(w: World, acts: seq<Act>): World
    decreases |acts|
  {
    if acts == [] then w else RunAll(Next(w, acts[0]), acts[1..])
  }

  predicate LiveHolder(w: World, a: nat) {
    Acting(w, a) && w.attempts[a].phase.Holding?
  }

  /** A live holder's claim is the row it made, still in flight. */
  ghost predicate HoldsRow(w: World, a: nat)
    requires a < |w.attempts|
  {
    var t := w.attempts[a];
    && t.start <= t.claimedAt <= w.now
    && t.key in w.keys
    && w.keys[t.key].status == InFlight && w.keys[t.key].createdAt == t.claimedAt
    && w.keys[t.key].owner == t.owner && w.keys[t.key].request == t.request
  }

  /** A row older than an attempt about to take it over is the one that attempt read. */
  ghost predicate ReadRow(w: World, a: nat)
    requires a < |w.attempts|
  {
    var t := w.attempts[a];
    t.phase == Expired && t.key in w.keys && w.keys[t.key].createdAt < t.start ==>
      w.keys[t.key].owner == t.owner && w.keys[t.key].request == t.request
  }

  ghost predicate RowTrue(w: World, key: string)
    requires key in w.keys
  {
    var row := w.keys[key];
    && row.createdAt <= w.now
    && (row.status == Completed ==>
          row.orderId.Some? && row.orderId.value in w.orders
          && w.orders[row.orderId.value] == Placed(key, row.owner, row.request))
  }

  ghost predicate ReplayTrue(w: World, a: nat)
    requires a < |w.attempts|
  {
    var t := w.attempts[a];
    t.phase.Over? && t.phase.replayed.Some? ==>
      t.phase.replayed.value in w.orders && w.orders[t.phase.replayed.value] == Placed(t.key, t.owner, t.request)
  }

  ghost predicate Exclusive(w: World) {
    && (forall a :: 0 <= a < |w.attempts| ==> w.attempts[a].start <= w.now && ReadRow(w, a) && ReplayTrue(w, a))
    && (forall a :: 0 <= a < |w.attempts| && LiveHolder(w, a) ==> HoldsRow(w, a))
    && (forall a, b :: 0 <= a < b < |w.attempts| && LiveHolder(w, a) && LiveHolder(w, b) ==>
          w.attempts[a].key != w.attempts[b].key)
    && (forall key :: key in w.keys ==> RowTrue(w, key))
  }

  /** No live holder's row can be taken over or reaped. */
  lemma LiveRowIsFresh(w: World, a: nat)
    requires Exclusive(w) && LiveHolder(w, a)
    ensures w.attempts[a].key in w.keys
    ensures !CanTakeOver(w.keys, w.attempts[a].key, w.now)
    ensures forall retain :: !PastUse(w.keys[w.attempts[a].key], retain, w.now)
  {
    assert HoldsRow(w, a);
  }

  lemma QuietStepKeepsExclusive(w: World, act: Act)
    requires Exclusive(w)
    requires act.Tick? || act.Begin? || act.DoReap?
    ensures Exclusive(Next(w, act))
  {
    var x := Next(w, act);
    forall a | 0 <= a < |x.attempts| ensures x.attempts[a].start <= x.now && ReadRow(x, a) && ReplayTrue(x, a) {
      if a < |w.attempts| {
        assert ReadRow(w, a) && ReplayTrue(w, a);
      }
    }
    forall a | 0 <= a < |x.attempts| && LiveHolder(x, a) ensures HoldsRow(x, a) {
      assert LiveHolder(w, a) && HoldsRow(w, a);
      LiveRowIsFresh(w, a);
    }
    forall a, b | 0 <= a < b < |x.attempts| && LiveHolder(x, a) && LiveHolder(x, b)
      ensures x.attempts[a].key != x.attempts[b].key
    {
      assert LiveHolder(w, a) && LiveHolder(w, b);
    }
    forall key | key in x.keys ensures RowTrue(x, key) {
      assert RowTrue(w, key);
    }
  }

  /** When an attempt claims, or acts on its claim, no other live attempt holds its key. */
  lemma NoRival(w: World, act: Act)
    requires Exclusive(w)
    requires !act.Tick? && !act.Begin? && !act.DoReap? && Next(w, act) != w
    ensures act.a < |w.attempts| && Acting(w, act.a)
    ensures LiveHolder(w, act.a) || LiveHolder(Next(w, act), act.a) ==>
              forall c :: 0 <= c < |w.attempts| && c != act.a && LiveHolder(w, c) ==>
                w.attempts[c].key != w.attempts[act.a].key
  {
    var a := act.a;
    forall c | 0 <= c < |w.attempts| && c != a && LiveHolder(w, c) && w.attempts[c].key == w.attempts[a].key
      ensures !LiveHolder(w, a) && !LiveHolder(Next(w, act), a)
    {
      LiveRowIsFresh(w, c);
    }
  }

  predicate ActsAlone(w: World, act: Act) {
    !act.Tick? && !act.Begin? && !act.DoReap? && Next(w, act) != w
  }

  lemma RowsStayTrue(w: World, act: Act)
    requires Exclusive(w) && ActsAlone(w, act)
    ensures forall key :: key in Next(w, act).keys ==> RowTrue(Next(w, act), key)
  {
    var x := Next(w, act);
    if LiveHolder(w, act.a) {
      assert HoldsRow(w, act.a);
    }
    forall key | key in x.keys ensures RowTrue(x, key) {
      assert key in w.keys ==> RowTrue(w, key);
    }
  }

  lemma ReplaysStayTrue(w: World, act: Act)
    requires Exclusive(w) && ActsAlone(w, act)
    ensures forall c :: 0 <= c < |Next(w, act).attempts| ==> Next(w, act).attempts[c].start <= w.now && ReplayTrue(Next(w, act), c)
  {
    var x := Next(w, act);
    var key := w.attempts[act.a].key;
    if key in w.keys {
      assert RowTrue(w, key);
    }
    forall c | 0 <= c < |x.attempts| ensures x.attempts[c].start <= w.now && ReplayTrue(x, c) {
      assert w.attempts[c].start <= w.now && ReplayTrue(w, c);
      assert c != act.a ==> x.attempts[c] == w.attempts[c];
    }
  }

  lemma ReadsStayTrue(w: World, act: Act)
    requires Exclusive(w) && ActsAlone(w, act)
    ensures forall c :: 0 <= c < |Next(w, act).attempts| ==> ReadRow(Next(w, act), c)
  {
    var x := Next(w, act);
    forall c | 0 <= c < |x.attempts| ensures ReadRow(x, c) {
      assert w.attempts[c].start <= w.now && ReadRow(w, c);
      assert c != act.a ==> x.attempts[c] == w.attempts[c];
    }
  }

  lemma HoldersKeepRows(w: World, act: Act)
    requires Exclusive(w) && ActsAlone(w, act)
    ensures forall c :: 0 <= c < |Next(w, act).attempts| && LiveHolder(Next(w, act), c) ==> HoldsRow(Next(w, act), c)
  {
    var x := Next(w, act);
    NoRival(w, act);
    assert ReadRow(w, act.a);
    forall c | 0 <= c < |x.attempts| && LiveHolder(x, c) ensures HoldsRow(x, c) {
      if c != act.a {
        assert x.attempts[c] == w.attempts[c];
        assert LiveHolder(w, c) && HoldsRow(w, c);
      } else if LiveHolder(w, c) {
        assert HoldsRow(w, c);
      }
    }
  }

  /** Whoever did not act holds its claim now only if it did before. */
  lemma BystanderSame(w: World, act: Act, c: nat)
    requires ActsAlone(w, act) && c < |w.attempts| && act.a < |w.attempts| && c != act.a
    ensures Next(w, act).attempts[c] == w.attempts[c]
    ensures LiveHolder(Next(w, act), c) <==> LiveHolder(w, c)
  {
  }

  lemma HoldersStayApart(w: World, act: Act)
    requires Exclusive(w) && ActsAlone(w, act)
    ensures forall c, d :: 0 <= c < d < |Next(w, act).attempts| && LiveHolder(Next(w, act), c) && LiveHolder(Next(w, act), d) ==>
              Next(w, act).attempts[c].key != Next(w, act).attempts[d].key
  {
    var x := Next(w, act);
    NoRival(w, act);
    forall c, d | 0 <= c < d < |x.attempts| && LiveHolder(x, c) && LiveHolder(x, d)
      ensures x.attempts[c].key != x.attempts[d].key
    {
      if c != act.a {
        BystanderSame(w, act, c);
      }
      if d != act.a {
        BystanderSame(w, act, d);
      }
      assert x.attempts[act.a].key == w.attempts[act.a].key;
    }
  }

  lemma StepKeepsExclusive(w: World, act: Act)
    requires Exclusive(w)
    ensures Exclusive(Next(w, act))
  {
    if act.Tick? || act.Begin? || act.DoReap? {
      QuietStepKeepsExclusive(w, act);
    } else if Next(w, act) != w {
      RowsStayTrue(w, act);
      ReadsStayTrue(w, act);
      ReplaysStayTrue(w, act);
      HoldersKeepRows(w, act);
      HoldersStayApart(w, act);
    }
  }

  /**
   If checkouts stop acting within the staleness bound of their start, at most one live attempt holds a key
   at any time, and a replay answers with an order committed for the same key, owner and request.
   */
  lemma {:induction false} ExclusiveOverRuns(w: World, acts: seq<Act>)
    requires Exclusive(w)
    ensures Exclusive(RunAll(w, acts))
    decreases |acts|
  {
    if acts != [] {
      StepKeepsExclusive(w, acts[0]);
      ExclusiveOverRuns(Next(w, acts[0]), acts[1..]);
    }
  }

  lemma StartIsExclusive(now: int)
    ensures Exclusive(World(now, map[], map[], []))
  {
  }

  /** Only the sole live holder of a key reserves stock or opens a payment for it. */
  lemma OnlyHolderActs(w: World, act: Act)
    requires Exclusive(w) && (act.DoReserve? || act.DoPay?) && Next(w, act) != w
    ensures LiveHolder(w, act.a)
    ensures forall c :: 0 <= c < |w.attempts| && LiveHolder(w, c) && w.attempts[c].key == w.attempts[act.a].key ==> c == act.a
  {
    NoRival(w, act);
  }

  /** Whether a step reserves stock or opens a payment. */
  predicate Acts(w: World, act: Act) {
    (act.DoReserve? || act.DoPay?) && Next(w, act) != w
  }

  /**
   From an empty table, after any interleaving: whoever reserves stock or opens a payment next is the only live
   attempt that holds its key, and every attempt that was answered with an earlier order was answered with one that
   was placed for its own key, owner and request.
   */
  lemma KeysProtectCheckouts(now: int, acts: seq<Act>, act: Act, a: nat)
    ensures var w := RunAll(World(now, map[], map[], []), acts);
            Acts(w, act) ==>
              LiveHolder(w, act.a)
              && forall c :: 0 <= c < |w.attempts| && LiveHolder(w, c) && w.attempts[c].key == w.attempts[act.a].key ==> c == act.a
    ensures var w := RunAll(World(now, map[], map[], []), acts);
            a < |w.attempts| && w.attempts[a].phase.Over? && w.attempts[a].phase.replayed.Some? ==>
              var t := w.attempts[a];
              t.phase.replayed.value in w.orders && w.orders[t.phase.replayed.value] == Placed(t.key, t.owner, t.request)
  {
    var w := RunAll(World(now, map[], map[], []), acts);
    StartIsExclusive(now);
    ExclusiveOverRuns(World(now, map[], map[], []), acts);
    if Acts(w, act) {
      OnlyHolderActs(w, act);
    }
    if a < |w.attempts| {
      assert ReplayTrue(w, a);
    }
  }
}
