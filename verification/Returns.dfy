/**
 Returns of fulfilled orders: quantity resolution, cumulative-rounding refunds, decisions,
 and the refunds they cause in the payment ledger.

 Return ids are positions in the returns table; a return's refund key is its id in decimal.
 return_lines has a primary key on (return, product), so a request that resolves one product
 twice fails on insert.
 */
module Returns {
  import opened Base
  import opened Money
  import opened Pricing
  import opened Orders
  import Payment

  datatype ReturnStatus = Requested | Approved | Rejected

  datatype ReturnLine = ReturnLine(productId: string, quantity: int, refund: int)

  datatype Return = Return(orderId: nat, status: ReturnStatus, lines: seq<ReturnLine>, refundTotal: int)

  datatype Req = Req(productId: string, quantity: int32)

  datatype Resolved = Resolved(productId: string, quantity: int, value: int)

  datatype Reason =
    | OrderNotFound | NotReturnable | LineNotInOrder | QtyExceedsReturnable | NothingToReturn | DuplicateLine
    | ReturnNotFound | BadTransition | RefundFailed

  // ---- rounding ------------------------------------------------------------

  function Values(rl: seq<Resolved>): int {
    if rl == [] then 0 else rl[0].value + Values(rl[1..])
  }

  lemma {:induction false} ValuesPush(rl: seq<Resolved>, r: Resolved)
    ensures Values(rl + [r]) == Values(rl) + r.value
  {
    if rl != [] {
      assert (rl + [r])[1..] == rl[1..] + [r];
      ValuesPush(rl[1..], r);
    }
  }

  /** What the first units of value of a return are worth: total * value / subtotal, rounded down. */
  function Share(total: int, subtotal: int, value: int): int
    requires subtotal > 0
  {
    GoDiv(total * value, subtotal)
  }

  /** The cumulative share after each number of lines. */
  function Cumulative(total: int, subtotal: int, rl: seq<Resolved>): (cums: seq<int>)
    requires subtotal > 0
    ensures |cums| == |rl| + 1
  {
    seq(|rl| + 1, i requires 0 <= i <= |rl| => Share(total, subtotal, Values(rl[..i])))
  }

  /** Each line gets the growth of a running amount. */
  function Allocate(rl: seq<Resolved>, cums: seq<int>): (ls: seq<ReturnLine>)
    requires |cums| == |rl| + 1
    ensures |ls| == |rl|
  {
    seq(|rl|, i requires 0 <= i < |rl| => ReturnLine(rl[i].productId, rl[i].quantity, cums[i + 1] - cums[i]))
  }

  function RefundLines(total: int, subtotal: int, rl: seq<Resolved>): (ls: seq<ReturnLine>)
    requires subtotal > 0
    ensures |ls| == |rl|
  {
    Allocate(rl, Cumulative(total, subtotal, rl))
  }

  function RefundSum(ls: seq<ReturnLine>): int {
    if ls == [] then 0 else ls[0].refund + RefundSum(ls[1..])
  }

  lemma {:induction false} RefundSumPush(ls: seq<ReturnLine>, l: ReturnLine)
    ensures RefundSum(ls + [l]) == RefundSum(ls) + l.refund
  {
    if ls != [] {
      assert (ls + [l])[1..] == ls[1..] + [l];
      RefundSumPush(ls[1..], l);
    }
  }

  lemma {:induction false} AllocationTelescopes(rl: seq<Resolved>, cums: seq<int>)
    requires |cums| == |rl| + 1
    ensures RefundSum(Allocate(rl, cums)) == cums[|rl|] - cums[0]
    decreases |rl|
  {
    if rl != [] {
      var n := |rl| - 1;
      AllocationTelescopes(rl[..n], cums[..n + 1]);
      var ls := Allocate(rl, cums);
      assert ls == Allocate(rl[..n], cums[..n + 1]) + [ls[n]];
      RefundSumPush(Allocate(rl[..n], cums[..n + 1]), ls[n]);
    }
  }

  /** The lines sum to the share of the whole return: nothing is lost between the lines. */
  lemma LinesSumToShare(total: int, subtotal: int, rl: seq<Resolved>)
    requires subtotal > 0
    ensures RefundSum(RefundLines(total, subtotal, rl)) == Share(total, subtotal, Values(rl))
  {
    AllocationTelescopes(rl, Cumulative(total, subtotal, rl));
    assert rl[..|rl|] == rl;
    assert total * 0 == 0;
  }

  /** For a non-negative amount, the share is the floor of the exact one. */
  lemma ShareIsFloor(total: int, subtotal: int, value: int)
    requires subtotal > 0 && total >= 0 && value >= 0
    ensures subtotal * Share(total, subtotal, value) <= total * value < subtotal * (Share(total, subtotal, value) + 1)
    ensures Share(total, subtotal, value) >= 0
  {
    MulMonotone(0, value, total);
    var x := total * value;
    assert Share(total, subtotal, value) == x / subtotal;
    DivFacts(x, subtotal);
  }

  lemma DivFacts(x: int, s: int)
    requires s > 0 && x >= 0
    ensures s * (x / s) <= x < s * (x / s + 1)
    ensures x / s >= 0
  {
    assert x == s * (x / s) + x % s;
  }

  /** Floors compare through exact multiples. */
  lemma Squeeze(s: int, a: int, b: int)
    requires s > 0 && s * a < s * b
    ensures a < b
  {
    if a >= b {
      MulMonotone(b, a, s);
    }
  }

  /** Line by line: never negative, and the floor or the ceiling of the exact pro-rata amount. */
  lemma LineRefundBounds(total: int, subtotal: int, rl: seq<Resolved>, i: nat)
    requires subtotal > 0 && total >= 0 && i < |rl|
    requires forall r :: r in rl ==> r.value >= 0
    ensures var refund := RefundLines(total, subtotal, rl)[i].refund;
            && refund >= 0
            && subtotal * (refund - 1) < total * rl[i].value < subtotal * (refund + 1)
  {
    var a, v := Values(rl[..i]), rl[i].value;
    assert rl[..i + 1] == rl[..i] + [rl[i]];
    ValuesPush(rl[..i], rl[i]);
    ValuesNonNegative(rl[..i]);
    assert rl[i] in rl;
    ShareIsFloor(total, subtotal, a);
    ShareIsFloor(total, subtotal, a + v);
    FloorGrowth(total, subtotal, a, v, Share(total, subtotal, a), Share(total, subtotal, a + v));
  }

  /** The growth of a floor is non-negative and within one of the exact growth. */
  lemma FloorGrowth(t: int, s: int, a: int, v: int, p: int, q: int)
    requires s > 0 && t >= 0 && v >= 0
    requires s * p <= t * a < s * (p + 1)
    requires s * q <= t * (a + v) < s * (q + 1)
    ensures q >= p
    ensures s * (q - p - 1) < t * v < s * (q - p + 1)
  {
    MulMonotone(0, v, t);
    Distribute(t, a, v);
    Distribute(s, p, 1);
    Distribute(s, q, 1);
    Distribute(s, q - p - 1, p + 1);
    Distribute(s, q - p + 1, p);
    Squeeze(s, p, q + 1);
  }

  lemma Distribute(a: int, b: int, c: int)
    ensures a * (b + c) == a * b + a * c
  {
  }

  lemma {:induction false} ValuesNonNegative(rl: seq<Resolved>)
    requires forall r :: r in rl ==> r.value >= 0
    ensures Values(rl) >= 0
  {
    if rl != [] {
      ValuesNonNegative(rl[1..]);
      assert rl[0] in rl;
    }
  }

  /** No product formed on the way exceeds total * subtotal while the value stays within the subtotal. */
  lemma ProductsStaySmall(total: int, subtotal: int, rl: seq<Resolved>, i: nat)
    requires subtotal > 0 && total >= 0 && i <= |rl|
    requires (forall r :: r in rl ==> r.value >= 0) && Values(rl) <= subtotal
    ensures 0 <= total * Values(rl[..i]) <= total * subtotal
  {
    ValuesNonNegative(rl[..i]);
    ValuesNonNegative(rl[i..]);
    assert rl == rl[..i] + rl[i..];
    ValuesSplit(rl[..i], rl[i..]);
    MulMonotone(0, Values(rl[..i]), total);
    MulMonotone(Values(rl[..i]), subtotal, total);
  }

  lemma {:induction false} ValuesSplit(a: seq<Resolved>, b: seq<Resolved>)
    ensures Values(a + b) == Values(a) + Values(b)
  {
    if a == [] {
      assert a + b == b;
    } else {
      assert (a + b)[1..] == a[1..] + b;
      ValuesSplit(a[1..], b);
    }
  }

  /** A return of everything refunds the order total to the cent. */
  lemma WholeOrderRefundsTotal(total: int, subtotal: int, rl: seq<Resolved>)
    requires subtotal > 0 && total >= 0 && Values(rl) == subtotal
    ensures RefundSum(RefundLines(total, subtotal, rl)) == total
  {
    LinesSumToShare(total, subtotal, rl);
    ShareIsFloor(total, subtotal, subtotal);
    var s := Share(total, subtotal, subtotal);
    assert total * subtotal == subtotal * total;
    Squeeze(subtotal, total, s + 1);
    if s > total {
      MulMonotone(total + 1, s, subtotal);
    }
  }

  /** One line on, the running value and the running amount each grow by one step. */
  lemma CumulativeNext(total: int, subtotal: int, rl: seq<Resolved>, i: nat)
    requires subtotal > 0 && i < |rl|
    ensures Values(rl[..i + 1]) == Values(rl[..i]) + rl[i].value
    ensures Cumulative(total, subtotal, rl)[i + 1] == GoDiv(total * (Values(rl[..i]) + rl[i].value), subtotal)
  {
    assert rl[..i + 1] == rl[..i] + [rl[i]];
    ValuesPush(rl[..i], rl[i]);
  }

  // ---- the desk --------------------------------------------------------------

  /** What the order service and the payment ledger hold between calls. */
  datatype Desk = Desk(orders: map<nat, Order>, rmas: seq<Return>, ledger: Payment.Ledger)

  function LineQty(ls: seq<ReturnLine>, productId: string): int {
    if ls == [] then 0
    else (if ls[0].productId == productId then ls[0].quantity else 0) + LineQty(ls[1..], productId)
  }

  /** Units of a product covered by the order's returns that are not REJECTED. */
  function ReturnedQty(rs: seq<Return>, orderId: nat, productId: string): int {
    if rs == [] then 0
    else (if rs[0].orderId == orderId && rs[0].status != Rejected then LineQty(rs[0].lines, productId) else 0)
         + ReturnedQty(rs[1..], orderId, productId)
  }

  /** byProduct keeps the last line of each product. */
  function FindLine(ls: seq<Line>, productId: string): Option<Line> {
    if ls == [] then None
    else if ls[|ls| - 1].productId == productId then Some(ls[|ls| - 1]) else FindLine(ls[..|ls| - 1], productId)
  }

  function AllLines(o: Order): (reqs: seq<Req>)
    ensures |reqs| == |o.lines| && forall i :: 0 <= i < |o.lines| ==> reqs[i] == Req(o.lines[i].productId, 0)
  {
    seq(|o.lines|, i requires 0 <= i < |o.lines| => Req(o.lines[i].productId, 0))
  }

  /** One requested line: nothing when no unit is left, else the units and their value. */
  function ResolveOne(o: Order, already: int, req: Req): Result<Option<Resolved>, Reason> {
    var found := FindLine(o.lines, req.productId);
    if found == None then Err(LineNotInOrder)
    else
      var returnable := found.value.quantity - already;
      var qty := if req.quantity == 0 then returnable else req.quantity;
      if qty <= 0 then Ok(None)
      else if qty > returnable then Err(QtyExceedsReturnable)
      else Ok(Some(Resolved(req.productId, qty, found.value.unitPrice * qty)))
  }

  /**
   One requested line: refused for a product the order does not list, or for more than is left of it; zero asks for
   all that is left, and a line that comes to nothing is dropped.
   */
  lemma ResolvedFigures(o: Order, already: int, req: Req, l: Line)
    requires DistinctProducts(o.lines)
    ensures (forall k :: k in o.lines ==> k.productId != req.productId) ==> ResolveOne(o, already, req) == Err(LineNotInOrder)
    ensures l in o.lines && l.productId == req.productId ==>
              var left := l.quantity - already;
              ResolveOne(o, already, req) ==
              if req.quantity == 0 && left > 0 then Ok(Some(Resolved(l.productId, left, l.unitPrice * left)))
              else if req.quantity <= 0 then Ok(None)
              else if req.quantity > left then Err(QtyExceedsReturnable)
              else Ok(Some(Resolved(l.productId, req.quantity, l.unitPrice * req.quantity)))
  {
    FindLineFinds(o.lines, req.productId);
    if l in o.lines && l.productId == req.productId {
      FindLineOf(o.lines, l);
    }
  }

  lemma {:induction false} FindLineFinds(ls: seq<Line>, productId: string)
    ensures FindLine(ls, productId).Some? ==> FindLine(ls, productId).value in ls && FindLine(ls, productId).value.productId == productId
    ensures FindLine(ls, productId) == None ==> forall l :: l in ls ==> l.productId != productId
  {
    if ls != [] && ls[|ls| - 1].productId != productId {
      FindLineFinds(ls[..|ls| - 1], productId);
      assert ls == ls[..|ls| - 1] + [ls[|ls| - 1]];
    }
  }

  lemma {:induction false} FindLineOf(ls: seq<Line>, l: Line)
    requires DistinctProducts(ls) && l in ls
    ensures FindLine(ls, l.productId) == Some(l)
  {
    var n := |ls| - 1;
    if ls[n] != l {
      var i :| 0 <= i < |ls| && ls[i] == l;
      assert ls[i].productId != ls[n].productId;
      assert ls[..n][i] == l;
      FindLineOf(ls[..n], l);
    }
  }

  function Resolve(o: Order, rs: seq<Return>, orderId: nat, reqs: seq<Req>): Result<seq<Resolved>, Reason> {
    if reqs == [] then Ok([])
    else
      var n := |reqs| - 1;
      var before := Resolve(o, rs, orderId, reqs[..n]);
      if before.Err? then before
      else
        var one := ResolveOne(o, ReturnedQty(rs, orderId, reqs[n].productId), reqs[n]);
        if one.Err? then Err(one.reason)
        else Ok(before.value + (if one.value == None then [] else [one.value.value]))
  }

  predicate Repeats(rl: seq<Resolved>) {
    exists i, j :: 0 <= i < j < |rl| && rl[i].productId == rl[j].productId
  }

  function Refusal(d: Desk, ownerId: string, orderId: nat, reqs: seq<Req>): Option<Reason> {
    if orderId !in d.orders || (ownerId != "" && d.orders[orderId].ownerId != ownerId) then Some(OrderNotFound)
    else
      var o := d.orders[orderId];
      if o.status != Fulfilled || o.subtotal <= 0 then Some(NotReturnable)
      else
        var rl := Resolve(o, d.rmas, orderId, if reqs == [] then AllLines(o) else reqs);
        if rl.Err? then Some(rl.reason)
        else if rl.value == [] then Some(NothingToReturn)
        else if Repeats(rl.value) then Some(DuplicateLine)
        else None
  }

  /** One of the order's lines lists the product, and of that line there is still what is asked for. */
  ghost predicate Fits(o: Order, rs: seq<Return>, orderId: nat, req: Req) {
    exists l :: l in o.lines && l.productId == req.productId
                && (req.quantity > 0 ==> req.quantity <= l.quantity - ReturnedQty(rs, orderId, l.productId))
  }

  /** Something comes back of the product: units are asked for, or all that is left and something is. */
  ghost predicate Brings(o: Order, rs: seq<Return>, orderId: nat, req: Req) {
    exists l :: l in o.lines && l.productId == req.productId
                && (req.quantity > 0 || (req.quantity == 0 && l.quantity - ReturnedQty(rs, orderId, l.productId) > 0))
  }

  ghost predicate BringsSome(o: Order, rs: seq<Return>, orderId: nat, reqs: seq<Req>, p: string) {
    exists i :: 0 <= i < |reqs| && reqs[i].productId == p && Brings(o, rs, orderId, reqs[i])
  }

  ghost predicate BringsTwice(o: Order, rs: seq<Return>, orderId: nat, reqs: seq<Req>) {
    exists i, j :: 0 <= i < j < |reqs| && reqs[i].productId == reqs[j].productId
                   && Brings(o, rs, orderId, reqs[i]) && Brings(o, rs, orderId, reqs[j])
  }

  predicate Names(rl: seq<Resolved>, p: string) {
    exists i :: 0 <= i < |rl| && rl[i].productId == p
  }

  /** One requested line, said without resolving it. */
  ghost predicate OneAs(one: Result<Option<Resolved>, Reason>, o: Order, rs: seq<Return>, orderId: nat, req: Req) {
    && (one.Ok? <==> Fits(o, rs, orderId, req))
    && (one.Ok? ==> (one.value.Some? <==> Brings(o, rs, orderId, req)))
    && (one.Ok? && one.value.Some? ==> one.value.value.productId == req.productId)
    && (one.Err? ==> one.reason in {LineNotInOrder, QtyExceedsReturnable})
  }

  lemma OneResolves(o: Order, rs: seq<Return>, orderId: nat, req: Req)
    requires DistinctProducts(o.lines)
    ensures OneAs(ResolveOne(o, ReturnedQty(rs, orderId, req.productId), req), o, rs, orderId, req)
  {
    FindLineFinds(o.lines, req.productId);
    var found := FindLine(o.lines, req.productId);
    forall l | l in o.lines && l.productId == req.productId ensures found == Some(l) {
      FindLineOf(o.lines, l);
    }
  }

  lemma NamesPush(rl: seq<Resolved>, r: Resolved)
    ensures Repeats(rl + [r]) <==> Repeats(rl) || Names(rl, r.productId)
    ensures forall p :: Names(rl + [r], p) <==> Names(rl, p) || r.productId == p
  {
    var all := rl + [r];
    var n := |rl|;
    forall i | 0 <= i < n ensures all[i] == rl[i] {}
    assert all[n] == r;
    if Names(rl, r.productId) {
      var i :| 0 <= i < n && rl[i].productId == r.productId;
      assert all[i].productId == all[n].productId;
    }
    forall p ensures Names(all, p) <==> Names(rl, p) || r.productId == p {
      if Names(rl, p) {
        var i :| 0 <= i < n && rl[i].productId == p;
        assert all[i].productId == p;
      }
    }
  }

  lemma BringsPush(o: Order, rs: seq<Return>, orderId: nat, reqs: seq<Req>)
    requires reqs != []
    ensures var n := |reqs| - 1;
            var last := Brings(o, rs, orderId, reqs[n]);
            && (BringsTwice(o, rs, orderId, reqs) <==>
                  BringsTwice(o, rs, orderId, reqs[..n]) || (last && BringsSome(o, rs, orderId, reqs[..n], reqs[n].productId)))
            && forall p :: BringsSome(o, rs, orderId, reqs, p) <==>
                             BringsSome(o, rs, orderId, reqs[..n], p) || (last && reqs[n].productId == p)
  {
    var n := |reqs| - 1;
    var init := reqs[..n];
    forall i | 0 <= i < n ensures init[i] == reqs[i] {}
    if BringsTwice(o, rs, orderId, reqs) {
      var i, j :| 0 <= i < j < |reqs| && reqs[i].productId == reqs[j].productId
                  && Brings(o, rs, orderId, reqs[i]) && Brings(o, rs, orderId, reqs[j]);
      if j < n {
        assert Brings(o, rs, orderId, init[i]) && Brings(o, rs, orderId, init[j]);
      } else {
        assert Brings(o, rs, orderId, init[i]);
      }
    }
    forall p ensures BringsSome(o, rs, orderId, reqs, p) <==>
                       BringsSome(o, rs, orderId, init, p) || (Brings(o, rs, orderId, reqs[n]) && reqs[n].productId == p)
    {
      if BringsSome(o, rs, orderId, reqs, p) {
        var i :| 0 <= i < |reqs| && reqs[i].productId == p && Brings(o, rs, orderId, reqs[i]);
        if i < n {
          assert init[i].productId == p && Brings(o, rs, orderId, init[i]);
        }
      }
    }
  }

  /** The requested lines as a whole, said without resolving them one after the other. */
  ghost predicate AllAs(r: Result<seq<Resolved>, Reason>, o: Order, rs: seq<Return>, orderId: nat, reqs: seq<Req>) {
    && (r.Ok? <==> AllFit(o, rs, orderId, reqs))
    && (r.Ok? ==> (forall p :: Names(r.value, p) <==> BringsSome(o, rs, orderId, reqs, p)))
    && (r.Ok? ==> (Repeats(r.value) <==> BringsTwice(o, rs, orderId, reqs)))
    && (r.Err? ==> r.reason in {LineNotInOrder, QtyExceedsReturnable})
  }

  ghost predicate AllFit(o: Order, rs: seq<Return>, orderId: nat, reqs: seq<Req>) {
    forall i :: 0 <= i < |reqs| ==> Fits(o, rs, orderId, reqs[i])
  }

  lemma AllFitPush(o: Order, rs: seq<Return>, orderId: nat, reqs: seq<Req>)
    requires reqs != []
    ensures AllFit(o, rs, orderId, reqs) <==> AllFit(o, rs, orderId, reqs[..|reqs| - 1]) && Fits(o, rs, orderId, reqs[|reqs| - 1])
  {
    var n := |reqs| - 1;
    forall i | 0 <= i < n ensures reqs[..n][i] == reqs[i] {}
    if AllFit(o, rs, orderId, reqs[..n]) && Fits(o, rs, orderId, reqs[n]) {
      forall i | 0 <= i < |reqs| ensures Fits(o, rs, orderId, reqs[i]) {
        assert i < n ==> Fits(o, rs, orderId, reqs[..n][i]);
      }
    }
  }

  lemma {:induction false} ResolveMeans(o: Order, rs: seq<Return>, orderId: nat, reqs: seq<Req>)
    requires DistinctProducts(o.lines)
    ensures AllAs(Resolve(o, rs, orderId, reqs), o, rs, orderId, reqs)
  {
    if reqs != [] {
      var n := |reqs| - 1;
      var one := ResolveOne(o, ReturnedQty(rs, orderId, reqs[n].productId), reqs[n]);
      ResolveMeans(o, rs, orderId, reqs[..n]);
      OneResolves(o, rs, orderId, reqs[n]);
      OneMore(Resolve(o, rs, orderId, reqs[..n]), one, o, rs, orderId, reqs);
    }
  }

  lemma OneMore(before: Result<seq<Resolved>, Reason>, one: Result<Option<Resolved>, Reason>,
                o: Order, rs: seq<Return>, orderId: nat, reqs: seq<Req>)
    requires reqs != [] && AllAs(before, o, rs, orderId, reqs[..|reqs| - 1]) && OneAs(one, o, rs, orderId, reqs[|reqs| - 1])
    ensures AllAs(if before.Err? then before else if one.Err? then Err(one.reason)
                  else Ok(before.value + (if one.value == None then [] else [one.value.value])), o, rs, orderId, reqs)
  {
    AllFitPush(o, rs, orderId, reqs);
    BringsPush(o, rs, orderId, reqs);
    if before.Ok? && one.Ok? {
      if one.value.Some? {
        NamesPush(before.value, one.value.value);
      } else {
        assert before.value + [] == before.value;
      }
    }
  }

  /**
   When a return request is accepted: the order is there and the caller's own, it was fulfilled and cost something,
   every product asked for is on it with as many units left as asked, something comes back, and no product twice.
   */
  lemma AcceptedExactly(d: Desk, ownerId: string, orderId: nat, reqs: seq<Req>)
    requires orderId in d.orders ==> DistinctProducts(d.orders[orderId].lines)
    ensures Refusal(d, ownerId, orderId, reqs) == Some(OrderNotFound) <==>
            orderId !in d.orders || (ownerId != "" && d.orders[orderId].ownerId != ownerId)
    ensures Refusal(d, ownerId, orderId, reqs) == None <==>
            && orderId in d.orders
            && var o := d.orders[orderId];
               var asked := if reqs == [] then AllLines(o) else reqs;
               && (ownerId == "" || o.ownerId == ownerId) && o.status == Fulfilled && o.subtotal > 0
               && AllFit(o, d.rmas, orderId, asked)
               && (exists p :: BringsSome(o, d.rmas, orderId, asked, p))
               && !BringsTwice(o, d.rmas, orderId, asked)
  {
    if orderId in d.orders {
      var o := d.orders[orderId];
      var asked := if reqs == [] then AllLines(o) else reqs;
      ResolveMeans(o, d.rmas, orderId, asked);
      var r := Resolve(o, d.rmas, orderId, asked);
      if r.Ok? && r.value != [] {
        assert Names(r.value, r.value[0].productId);
      }
    }
  }

  function NewReturn(d: Desk, orderId: nat, reqs: seq<Req>): Return
    requires orderId in d.orders && d.orders[orderId].subtotal > 0
    requires Resolve(d.orders[orderId], d.rmas, orderId, if reqs == [] then AllLines(d.orders[orderId]) else reqs).Ok?
  {
    var o := d.orders[orderId];
    var rl := Resolve(o, d.rmas, orderId, if reqs == [] then AllLines(o) else reqs).value;
    var ls := RefundLines(o.total, o.subtotal, rl);
    Return(orderId, Requested, ls, RefundSum(ls))
  }

  /** So many units of the product were asked for, or all that is left of it, and that many are left. */
  ghost predicate AskedAs(o: Order, rs: seq<Return>, orderId: nat, reqs: seq<Req>, p: string, units: int) {
    exists i, l :: 0 <= i < |reqs| && l in o.lines && reqs[i].productId == p && l.productId == p
                   && units == (if reqs[i].quantity == 0 then l.quantity - ReturnedQty(rs, orderId, p) else reqs[i].quantity)
                   && 0 < units <= l.quantity - ReturnedQty(rs, orderId, p)
  }

  lemma OneAsAsked(o: Order, rs: seq<Return>, orderId: nat, reqs: seq<Req>)
    requires reqs != []
    ensures var n := |reqs| - 1;
            var one := ResolveOne(o, ReturnedQty(rs, orderId, reqs[n].productId), reqs[n]);
            one.Ok? && one.value.Some? ==> AskedAs(o, rs, orderId, reqs, one.value.value.productId, one.value.value.quantity)
    ensures forall p, units :: AskedAs(o, rs, orderId, reqs[..|reqs| - 1], p, units) ==> AskedAs(o, rs, orderId, reqs, p, units)
  {
    var n := |reqs| - 1;
    FindLineFinds(o.lines, reqs[n].productId);
    forall i | 0 <= i < n ensures reqs[..n][i] == reqs[i] {}
  }

  lemma {:induction false} ResolvedAsAsked(o: Order, rs: seq<Return>, orderId: nat, reqs: seq<Req>)
    requires Resolve(o, rs, orderId, reqs).Ok?
    ensures forall r :: r in Resolve(o, rs, orderId, reqs).value ==> AskedAs(o, rs, orderId, reqs, r.productId, r.quantity)
  {
    if reqs != [] {
      ResolvedAsAsked(o, rs, orderId, reqs[..|reqs| - 1]);
      OneAsAsked(o, rs, orderId, reqs);
    }
  }

  /**
   What an accepted request writes: a REQUESTED return with a line for each product of which something comes back, of
   as many units as were asked for, and a total that is the sum of its lines.
   */
  lemma NewReturnFigures(d: Desk, ownerId: string, orderId: nat, reqs: seq<Req>)
    requires Refusal(d, ownerId, orderId, reqs) == None && DistinctProducts(d.orders[orderId].lines)
    ensures var o := d.orders[orderId];
            var asked := if reqs == [] then AllLines(o) else reqs;
            var n := NewReturn(d, orderId, reqs);
            && n.orderId == orderId && n.status == Requested && n.refundTotal == RefundSum(n.lines)
            && (forall k :: 0 <= k < |n.lines| ==>
                  && BringsSome(o, d.rmas, orderId, asked, n.lines[k].productId)
                  && AskedAs(o, d.rmas, orderId, asked, n.lines[k].productId, n.lines[k].quantity))
            && (forall p :: BringsSome(o, d.rmas, orderId, asked, p) ==>
                  exists k :: 0 <= k < |n.lines| && n.lines[k].productId == p)
  {
    var o := d.orders[orderId];
    var asked := if reqs == [] then AllLines(o) else reqs;
    var rl := Resolve(o, d.rmas, orderId, asked).value;
    ResolveMeans(o, d.rmas, orderId, asked);
    ResolvedAsAsked(o, d.rmas, orderId, asked);
    var ls := NewReturn(d, orderId, reqs).lines;
    assert forall k :: 0 <= k < |rl| ==> ls[k].productId == rl[k].productId && ls[k].quantity == rl[k].quantity;
    forall k | 0 <= k < |ls|
      ensures BringsSome(o, d.rmas, orderId, asked, ls[k].productId)
              && AskedAs(o, d.rmas, orderId, asked, ls[k].productId, ls[k].quantity)
    {
      assert rl[k] in rl && Names(rl, rl[k].productId);
    }
    forall p | BringsSome(o, d.rmas, orderId, asked, p) ensures exists k :: 0 <= k < |ls| && ls[k].productId == p {
      assert Names(rl, p);
      var k :| 0 <= k < |rl| && rl[k].productId == p;
      assert ls[k].productId == p;
    }
  }

  function WithRequest(d: Desk, ownerId: string, orderId: nat, reqs: seq<Req>): Desk {
    if Refusal(d, ownerId, orderId, reqs).Some? then d
    else d.(rmas := d.rmas + [NewReturn(d, orderId, reqs)])
  }

  function Key(returnId: nat): string {
    Digits(returnId)
  }

  function Decided(r: Return, approve: bool): Option<Return> {
    var want := if approve then Approved else Rejected;
    if r.status == want then Some(r) else if r.status != Requested then None else Some(r.(status := want))
  }

  /** Whether an approved return still asks the payment service for money. */
  predicate AsksRefund(d: Desk, returnId: nat)
    requires returnId < |d.rmas|
  {
    var r := d.rmas[returnId];
    && r.status == Approved && r.orderId in d.orders
    && d.orders[r.orderId].paymentId.Some? && r.refundTotal > 0
  }

  function AfterDecision(d: Desk, returnId: nat, approve: bool): Desk {
    if returnId >= |d.rmas| || Decided(d.rmas[returnId], approve) == None then d
    else d.(rmas := d.rmas[returnId := Decided(d.rmas[returnId], approve).value])
  }

  /** A decision and, when the payment service answers, the refund it asks for. */
  function DecidedDesk(d: Desk, returnId: nat, approve: bool, paymentUp: bool): Desk {
    var e := AfterDecision(d, returnId, approve);
    if returnId >= |d.rmas| || Decided(d.rmas[returnId], approve) == None then d
    else if !AsksRefund(e, returnId) || !paymentUp then e
    else
      var r := e.rmas[returnId];
      e.(ledger := Payment.RefundApplied(e.ledger, e.orders[r.orderId].paymentId.value, r.refundTotal, Key(returnId)))
  }

  /**
   What the operator is told. A decision that stands can still fail on its refund, to be asked for again; whether the
   units are back in stock is not part of it.
   */
  function DecisionReply(d: Desk, returnId: nat, approve: bool, paymentUp: bool): Result<(), Reason> {
    if returnId >= |d.rmas| then Err(ReturnNotFound)
    else if d.rmas[returnId].status != Requested && d.rmas[returnId].status != (if approve then Approved else Rejected) then
      Err(BadTransition)
    else if !approve then Ok(())
    else if d.rmas[returnId].orderId !in d.orders then Err(OrderNotFound)
    else
      var r := d.rmas[returnId];
      var payment := d.orders[r.orderId].paymentId;
      if payment.Some? && r.refundTotal > 0
         && (!paymentUp || Payment.RefundOutcome(d.ledger, payment.value, r.refundTotal, Key(returnId)) != Payment.Done) then
        Err(RefundFailed)
      else Ok(())
  }

  /**
   A refund asked for under a key: nothing moves if one was made under it before; else one row of exactly that amount
   is added, the payment's refunded balance grows by it, it is announced, and no other payment changes.
   */
  ghost predicate PaysBack(l: Payment.Ledger, m: Payment.Ledger, payment: nat, cents: int, key: string) {
    && payment < |l.intents| == |m.intents|
    && if Payment.Made(l, payment, key) then m == l
       else
         && m.refunds == l.refunds + [Payment.RefundRow(payment, cents, key)]
         && m.outbox == l.outbox + [Payment.RefundedEvent(payment, cents)]
         && m.intents[payment].refunded == l.intents[payment].refunded + cents
         && forall i :: 0 <= i < |l.intents| && i != payment ==> m.intents[i] == l.intents[i]
  }

  lemma KeyNonEmpty(returnId: nat)
    ensures Key(returnId) != ""
  {
  }

  class ReturnDesk {
    const payments: Payment.PaymentStore
    var orders: map<nat, Order>
    var rmas: seq<Return>

    function State(): Desk
      reads this, payments
    {
      Desk(orders, rmas, payments.State())
    }

    constructor (orders: map<nat, Order>, payments: Payment.PaymentStore)
      ensures this.payments == payments && State() == Desk(orders, [], payments.State())
    {
      this.payments := payments;
      this.orders := orders;
      this.rmas := [];
    }

    method QtyInReturns(orderId: nat, productId: string) returns (n: int)
      ensures n == ReturnedQty(rmas, orderId, productId)
    {
      n := 0;
      var i := |rmas|;
      while i > 0
        invariant 0 <= i <= |rmas|
        invariant n == ReturnedQty(rmas[i..], orderId, productId)
      {
        i := i - 1;
        var r := rmas[i];
        assert rmas[i..] == [r] + rmas[i + 1..];
        if r.orderId == orderId && r.status != Rejected {
          n := LineQty(r.lines, productId) + n;
        }
      }
      assert rmas[0..] == rmas;
    }

    method ResolveReturnLines(o: Order, orderId: nat, reqs: seq<Req>) returns (r: Result<seq<Resolved>, Reason>)
      ensures r == Resolve(o, rmas, orderId, if reqs == [] then AllLines(o) else reqs)
    {
      var todo := if reqs == [] then AllLines(o) else reqs;
      var out: seq<Resolved> := [];
      var i := 0;
      while i < |todo|
        invariant 0 <= i <= |todo|
        invariant Resolve(o, rmas, orderId, todo[..i]) == Ok(out)
      {
        var req := todo[i];
        assert todo[..i + 1][..i] == todo[..i];
        var found := FindLine(o.lines, req.productId);
        if found == None {
          StopsAt(o, rmas, orderId, todo, i + 1);
          return Err(LineNotInOrder);
        }
        var already := QtyInReturns(orderId, req.productId);
        var returnable := found.value.quantity - already;
        var qty := if req.quantity == 0 then returnable else req.quantity;
        if qty > 0 {
          if qty > returnable {
            StopsAt(o, rmas, orderId, todo, i + 1);
            return Err(QtyExceedsReturnable);
          }
          out := out + [Resolved(req.productId, qty, found.value.unitPrice * qty)];
        } else {
          assert out + [] == out;
        }
        i := i + 1;
      }
      assert todo[..i] == todo;
      r := Ok(out);
    }

    /** Allocates by running cumulative rounding. */
    method AllocateRefunds(total: int, subtotal: int, rl: seq<Resolved>) returns (lines: seq<ReturnLine>, totalCents: int)
      requires subtotal > 0
      ensures lines == RefundLines(total, subtotal, rl) && totalCents == RefundSum(lines)
    {
      lines := [];
      totalCents := 0;
      var cumValue, cumRefund := 0, 0;
      assert total * 0 == 0;
      ghost var cums := Cumulative(total, subtotal, rl);
      var i := 0;
      while i < |rl|
        invariant 0 <= i <= |rl|
        invariant cumValue == Values(rl[..i]) && cumRefund == cums[i]
        invariant lines == Allocate(rl, cums)[..i]
        invariant totalCents == RefundSum(lines)
      {
        CumulativeNext(total, subtotal, rl, i);
        cumValue := cumValue + rl[i].value;
        var newCum := GoDiv(total * cumValue, subtotal);
        assert Allocate(rl, cums)[..i + 1] == Allocate(rl, cums)[..i] + [Allocate(rl, cums)[i]];
        var line := ReturnLine(rl[i].productId, rl[i].quantity, newCum - cumRefund);
        RefundSumPush(lines, line);
        totalCents := totalCents + (newCum - cumRefund);
        cumRefund := newCum;
        lines := lines + [line];
        i := i + 1;
      }
    }

    method RequestReturn(ownerId: string, orderId: nat, reqs: seq<Req>) returns (r: Result<nat, Reason>)
      modifies this`rmas
      ensures State() == WithRequest(old(State()), ownerId, orderId, reqs)
      ensures r == match Refusal(old(State()), ownerId, orderId, reqs)
                   case Some(why) => Err(why)
                   case None => Ok(old(|rmas|))
    {
      if orderId !in orders || (ownerId != "" && orders[orderId].ownerId != ownerId) {
        return Err(OrderNotFound);
      }
      var o := orders[orderId];
      if o.status != Fulfilled || o.subtotal <= 0 {
        return Err(NotReturnable);
      }
      var resolved := ResolveReturnLines(o, orderId, reqs);
      if resolved.Err? {
        return Err(resolved.reason);
      }
      var rl := resolved.value;
      if rl == [] {
        return Err(NothingToReturn);
      }
      var lines, totalCents := AllocateRefunds(o.total, o.subtotal, rl);
      // the insert: one row a line, keyed by product
      if Repeats(rl) {
        return Err(DuplicateLine);
      }
      rmas := rmas + [Return(orderId, Requested, lines, totalCents)];
      r := Ok(|rmas| - 1);
    }

    /** paymentUp says whether the refund call reaches the payment service. */
    method DecideReturn(returnId: nat, approve: bool, paymentUp: bool) returns (r: Result<(), Reason>)
      modifies this`rmas, payments
      ensures State() == DecidedDesk(old(State()), returnId, approve, paymentUp)
      ensures r == DecisionReply(old(State()), returnId, approve, paymentUp)
      ensures r.Ok? ==> returnId < |rmas| && (rmas[returnId].status == Approved <==> approve)
      ensures orders == old(orders) && |rmas| == |old(rmas)|
      ensures r.Ok? ==> rmas == old(rmas)[returnId := old(rmas)[returnId].(status := if approve then Approved else Rejected)]
      ensures r == Err(ReturnNotFound) || r == Err(BadTransition) ==> State() == old(State())
      ensures r == Err(RefundFailed) || !approve ==> payments.State() == old(payments.State())
      ensures r.Ok? && approve && rmas[returnId].refundTotal > 0 && orders[rmas[returnId].orderId].paymentId.Some? ==>
                PaysBack(old(payments.State()), payments.State(), orders[rmas[returnId].orderId].paymentId.value,
                         rmas[returnId].refundTotal, Key(returnId))
      ensures r == Err(RefundFailed) ==> returnId < |rmas| && AsksRefund(State(), returnId)
    {
      KeyNonEmpty(returnId);
      if returnId >= |rmas| {
        return Err(ReturnNotFound);
      }
      var decided := Decided(rmas[returnId], approve);
      if decided == None {
        return Err(BadTransition);
      }
      rmas := rmas[returnId := decided.value];
      var ret := rmas[returnId];
      if ret.status != Approved {
        return Ok(());
      }
      if ret.orderId !in orders {
        return Err(OrderNotFound);
      }
      var paymentId := orders[ret.orderId].paymentId;
      if paymentId.Some? && ret.refundTotal > 0 {
        if !paymentUp {
          return Err(RefundFailed);
        }
        // the amount crosses the wire as units and nanos
        var amount := Money("", ret.refundTotal);
        WireRoundTrip(amount);
        var cents := Units(amount) * 100 + GoDiv(Nanos(amount), 10_000_000);
        var outcome := payments.Refund(paymentId.value, cents, Key(returnId));
        if outcome != Payment.Done {
          return Err(RefundFailed);
        }
      }
      r := Ok(());
    }
  }

  /** An error ends the resolution whatever follows. */
  lemma {:induction false} StopsAt(o: Order, rs: seq<Return>, orderId: nat, reqs: seq<Req>, k: nat)
    requires k <= |reqs| && Resolve(o, rs, orderId, reqs[..k]).Err?
    ensures Resolve(o, rs, orderId, reqs) == Resolve(o, rs, orderId, reqs[..k])
    decreases |reqs|
  {
    if k < |reqs| {
      var n := |reqs| - 1;
      assert reqs[..n][..k] == reqs[..k];
      StopsAt(o, rs, orderId, reqs[..n], k);
    } else {
      assert reqs[..k] == reqs;
    }
  }
}
