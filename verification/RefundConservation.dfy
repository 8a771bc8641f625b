/** What holds of returns and refunds over every serial run of requests and decisions. */
module RefundConservation {
  import opened Base
  import opened Pricing
  import opened Orders
  import opened Returns
  import Payment

  datatype Op =
    | Request(ownerId: string, orderId: nat, reqs: seq<Req>)
    | Decide(returnId: nat, approve: bool, paymentUp: bool)

  function Step(d: Desk, op: Op): Desk {
    match op
    case Request(ownerId, orderId, reqs) => WithRequest(d, ownerId, orderId, reqs)
    case Decide(returnId, approve, paymentUp) => DecidedDesk(d, returnId, approve, paymentUp)
  }

  function Run(d: Desk, ops: seq<Op>): Desk
    decreases |ops|
  {
    if ops == [] then d else Run(Step(d, ops[0]), ops[1..])
  }

  predicate Live(r: Return, orderId: nat) {
    r.orderId == orderId && r.status != Rejected
  }

  /** Pre-tax value of return lines, at the order's prices. */
  function ReturnValue(ls: seq<Line>, rls: seq<ReturnLine>): int
    requires forall r :: r in rls ==> FindLine(ls, r.productId).Some?
  {
    if rls == [] then 0
    else FindLine(ls, rls[0].productId).value.unitPrice * rls[0].quantity + ReturnValue(ls, rls[1..])
  }

  ghost predicate LinesOk(ls: seq<Line>, rls: seq<ReturnLine>) {
    && (forall r :: r in rls ==> FindLine(ls, r.productId).Some? && r.quantity > 0)
    && (forall i, j :: 0 <= i < j < |rls| ==> rls[i].productId != rls[j].productId)
  }

  /** A return as the desk writes it. */
  ghost predicate ReturnOk(o: Order, r: Return) {
    && o.subtotal > 0 && LinesOk(o.lines, r.lines)
    && r.refundTotal == Share(o.total, o.subtotal, ReturnValue(o.lines, r.lines))
  }

  function LiveRefund(rs: seq<Return>, orderId: nat): int {
    if rs == [] then 0 else (if Live(rs[0], orderId) then rs[0].refundTotal else 0) + LiveRefund(rs[1..], orderId)
  }

  function LiveCount(rs: seq<Return>, orderId: nat): nat {
    if rs == [] then 0 else (if Live(rs[0], orderId) then 1 else 0) + LiveCount(rs[1..], orderId)
  }

  function LiveValue(ls: seq<Line>, rs: seq<Return>, orderId: nat): int
    requires forall r :: r in rs && r.orderId == orderId ==> LinesOk(ls, r.lines)
  {
    if rs == [] then 0
    else
      var r := rs[0];
      assert r in rs;
      assert Live(r, orderId) ==> LinesOk(ls, r.lines);
      (if Live(r, orderId) then ReturnValue(ls, r.lines) else 0) + LiveValue(ls, rs[1..], orderId)
  }

  // ---- prices and lines ------------------------------------------------------

  /** Value counted product by product instead of return by return. */
  function ByProducts(ls: seq<Line>, rls: seq<ReturnLine>): int {
    if ls == [] then 0
    else ByProducts(ls[..|ls| - 1], rls) + ls[|ls| - 1].unitPrice * LineQty(rls, ls[|ls| - 1].productId)
  }

  lemma {:induction false} ByProductsCons(ls: seq<Line>, rls: seq<ReturnLine>)
    requires rls != []
    ensures ByProducts(ls, rls) == ByProducts(ls, rls[..1]) + ByProducts(ls, rls[1..])
  {
    if ls != [] {
      var l := ls[|ls| - 1];
      ByProductsCons(ls[..|ls| - 1], rls);
      assert LineQty(rls[..1], l.productId) == if rls[0].productId == l.productId then rls[0].quantity else 0;
      Distribute(l.unitPrice, LineQty(rls[..1], l.productId), LineQty(rls[1..], l.productId));
    }
  }

  lemma {:induction false} ByProductsOne(ls: seq<Line>, r: ReturnLine)
    requires DistinctProducts(ls)
    ensures ByProducts(ls, [r]) == match FindLine(ls, r.productId) case None => 0 case Some(l) => l.unitPrice * r.quantity
  {
    assert [r][1..] == [];
    if ls != [] {
      var n := |ls| - 1;
      ByProductsOne(ls[..n], r);
      assert LineQty([r], ls[n].productId) == if r.productId == ls[n].productId then r.quantity else 0;
      if ls[n].productId == r.productId {
        FindLineFinds(ls[..n], r.productId);
        assert forall l :: l in ls[..n] ==> l.productId != ls[n].productId;
      } else {
        assert ls[n].unitPrice * 0 == 0;
      }
    }
  }

  lemma {:induction false} ByProductsIsValue(ls: seq<Line>, rls: seq<ReturnLine>)
    requires DistinctProducts(ls)
    requires forall r :: r in rls ==> FindLine(ls, r.productId).Some?
    ensures ByProducts(ls, rls) == ReturnValue(ls, rls)
    decreases |rls|
  {
    if rls == [] {
      NothingReturned(ls);
    } else {
      ByProductsCons(ls, rls);
      ByProductsOne(ls, rls[0]);
      assert rls[..1] == [rls[0]];
      ByProductsIsValue(ls, rls[1..]);
    }
  }

  lemma {:induction false} NothingReturned(ls: seq<Line>)
    ensures ByProducts(ls, []) == 0
  {
    if ls != [] {
      NothingReturned(ls[..|ls| - 1]);
      assert ls[|ls| - 1].unitPrice * 0 == 0;
    }
  }

  /** The same count over all of an order's live returns. */
  function QtyValue(ls: seq<Line>, rs: seq<Return>, orderId: nat): int {
    if ls == [] then 0
    else QtyValue(ls[..|ls| - 1], rs, orderId) + ls[|ls| - 1].unitPrice * ReturnedQty(rs, orderId, ls[|ls| - 1].productId)
  }

  lemma {:induction false} QtyValueCons(ls: seq<Line>, rs: seq<Return>, orderId: nat)
    requires rs != []
    ensures QtyValue(ls, rs, orderId) ==
            QtyValue(ls, rs[1..], orderId) + (if Live(rs[0], orderId) then ByProducts(ls, rs[0].lines) else 0)
  {
    if ls != [] {
      var l := ls[|ls| - 1];
      QtyValueCons(ls[..|ls| - 1], rs, orderId);
      Distribute(l.unitPrice, LineQty(rs[0].lines, l.productId), ReturnedQty(rs[1..], orderId, l.productId));
    }
  }

  lemma {:induction false} NoReturns(ls: seq<Line>, orderId: nat)
    ensures QtyValue(ls, [], orderId) == 0
  {
    if ls != [] {
      NoReturns(ls[..|ls| - 1], orderId);
      assert ls[|ls| - 1].unitPrice * 0 == 0;
    }
  }

  lemma {:induction false} LiveValueByProducts(ls: seq<Line>, rs: seq<Return>, orderId: nat)
    requires DistinctProducts(ls)
    requires forall r :: r in rs && r.orderId == orderId ==> LinesOk(ls, r.lines)
    ensures LiveValue(ls, rs, orderId) == QtyValue(ls, rs, orderId)
    decreases |rs|
  {
    if rs == [] {
      NoReturns(ls, orderId);
    } else {
      QtyValueCons(ls, rs, orderId);
      LiveValueByProducts(ls, rs[1..], orderId);
      if Live(rs[0], orderId) {
        assert rs[0] in rs;
        ByProductsIsValue(ls, rs[0].lines);
      }
    }
  }

  lemma {:induction false} QtyValueWithinGross(ls: seq<Line>, rs: seq<Return>, orderId: nat)
    requires Sane(ls)
    requires forall l :: l in ls ==> ReturnedQty(rs, orderId, l.productId) <= l.quantity
    ensures QtyValue(ls, rs, orderId) <= Total(Gross, ls)
    ensures (forall l :: l in ls ==> ReturnedQty(rs, orderId, l.productId) == l.quantity) ==>
              QtyValue(ls, rs, orderId) == Total(Gross, ls)
  {
    if ls != [] {
      var n := |ls| - 1;
      assert ls == ls[..n] + [ls[n]];
      TotalPush(Gross, ls[..n], ls[n]);
      QtyValueWithinGross(ls[..n], rs, orderId);
      assert ls[n] in ls;
      MulMonotone(ReturnedQty(rs, orderId, ls[n].productId), ls[n].quantity, ls[n].unitPrice);
    }
  }

  lemma {:induction false} ReturnValueNonNegative(ls: seq<Line>, rls: seq<ReturnLine>)
    requires Sane(ls) && LinesOk(ls, rls)
    ensures ReturnValue(ls, rls) >= 0
  {
    if rls != [] {
      assert rls[0] in rls;
      FindLineFinds(ls, rls[0].productId);
      MulMonotone(0, rls[0].quantity, FindLine(ls, rls[0].productId).value.unitPrice);
      ReturnValueNonNegative(ls, rls[1..]);
    }
  }

  // ---- floors over many returns --------------------------------------------------

  /** The live refunds together are a floor of the live value, give or take one cent a return. */
  lemma {:induction false} RefundsFollowValue(o: Order, rs: seq<Return>, orderId: nat)
    requires WellPriced(o) && o.subtotal > 0
    requires forall r :: r in rs && r.orderId == orderId ==> ReturnOk(o, r)
    requires forall r :: r in rs && r.orderId == orderId ==> LinesOk(o.lines, r.lines)
    ensures o.subtotal * LiveRefund(rs, orderId) <= o.total * LiveValue(o.lines, rs, orderId)
    ensures o.total * LiveValue(o.lines, rs, orderId) <=
            o.subtotal * LiveRefund(rs, orderId) + (o.subtotal - 1) * LiveCount(rs, orderId)
    ensures forall r :: r in rs && r.orderId == orderId ==> r.refundTotal >= 0
  {
    if rs != [] {
      RefundsFollowValue(o, rs[1..], orderId);
      if rs[0].orderId == orderId {
        assert rs[0] in rs;
        var v := ReturnValue(o.lines, rs[0].lines);
        ReturnValueNonNegative(o.lines, rs[0].lines);
        ShareIsFloor(o.total, o.subtotal, v);
        if Live(rs[0], orderId) {
          var x := rs[0].refundTotal;
          FloorSums(o.subtotal, o.total, x, v, LiveRefund(rs[1..], orderId), LiveValue(o.lines, rs[1..], orderId), LiveCount(rs[1..], orderId));
        }
      }
    } else {
      assert o.subtotal * 0 == 0 && o.total * 0 == 0 && (o.subtotal - 1) * 0 == 0;
    }
  }

  lemma FloorSums(s: int, t: int, x: int, v: int, r: int, w: int, k: int)
    requires s * x <= t * v < s * (x + 1)
    requires s * r <= t * w <= s * r + (s - 1) * k
    ensures s * (x + r) <= t * (v + w) <= s * (x + r) + (s - 1) * (1 + k)
  {
    Distribute(s, x, r);
    Distribute(s, x, 1);
    Distribute(t, v, w);
    Distribute(s - 1, 1, k);
  }

  // ---- the invariant --------------------------------------------------------------

  /** An order and its payment are set up for returns. */
  ghost predicate OrderOk(d: Desk, orderId: nat)
    requires orderId in d.orders
  {
    var o := d.orders[orderId];
    && WellPriced(o)
    && (o.paymentId.Some? ==>
          && o.paymentId.value < |d.ledger.intents|
          && d.ledger.intents[o.paymentId.value].orderRef == orderId
          && (o.status == Fulfilled ==>
                && d.ledger.intents[o.paymentId.value].status in {Payment.Authorized, Payment.Status.Refunded}
                && d.ledger.intents[o.paymentId.value].amount == o.total))
  }

  /** Every refund row on the order's payment is that of one of its approved returns. */
  ghost predicate RowsOk(d: Desk, orderId: nat)
    requires orderId in d.orders
  {
    d.orders[orderId].paymentId.Some? ==>
      forall k :: 0 <= k < |d.ledger.refunds| && d.ledger.refunds[k].payment == d.orders[orderId].paymentId.value ==>
        RowExplained(d, orderId, d.ledger.refunds[k])
  }

  ghost predicate RowExplained(d: Desk, orderId: nat, row: Payment.RefundRow) {
    exists i :: 0 <= i < |d.rmas| && row.key == Key(i) && d.rmas[i].orderId == orderId
                && d.rmas[i].status == Approved && row.amount == d.rmas[i].refundTotal
  }

  /** What has been paid back on the first n returns. */
  function PaidSum(rs: seq<Return>, l: Payment.Ledger, orderId: nat, payment: nat, n: nat): int
    requires n <= |rs|
  {
    if n == 0 then 0
    else PaidSum(rs, l, orderId, payment, n - 1)
         + (if rs[n - 1].orderId == orderId && Payment.AlreadyApplied(l, payment, Key(n - 1)) then rs[n - 1].refundTotal else 0)
  }

  ghost predicate PaidOk(d: Desk, orderId: nat)
    requires orderId in d.orders
  {
    d.orders[orderId].paymentId.Some? ==>
      var p := d.orders[orderId].paymentId.value;
      Payment.RowSum(d.ledger.refunds, p) == PaidSum(d.rmas, d.ledger, orderId, p, |d.rmas|)
  }

  ghost predicate QtyOk(d: Desk, orderId: nat)
    requires orderId in d.orders
  {
    forall l :: l in d.orders[orderId].lines ==> ReturnedQty(d.rmas, orderId, l.productId) <= l.quantity
  }

  ghost predicate ReturnsOk(d: Desk) {
    forall i :: 0 <= i < |d.rmas| ==>
      && d.rmas[i].orderId in d.orders
      && d.orders[d.rmas[i].orderId].status == Fulfilled
      && ReturnOk(d.orders[d.rmas[i].orderId], d.rmas[i])
  }

  ghost predicate Safe(d: Desk) {
    && Payment.Consistent(d.ledger)
    && ReturnsOk(d)
    && forall orderId :: orderId in d.orders ==>
         OrderOk(d, orderId) && QtyOk(d, orderId) && RowsOk(d, orderId) && PaidOk(d, orderId)
  }

  /** Nothing was refunded on the orders' payments. */
  ghost predicate Unrefunded(d: Desk) {
    forall orderId, k :: orderId in d.orders && 0 <= k < |d.ledger.refunds| ==>
      d.orders[orderId].paymentId != Some(d.ledger.refunds[k].payment)
  }

  /** A desk nobody has used yet is safe: no returns, and nothing refunded on its orders' payments. */
  lemma FreshDeskIsSafe(d: Desk)
    requires d.rmas == [] && Payment.Consistent(d.ledger) && Unrefunded(d)
    requires forall orderId :: orderId in d.orders ==> OrderOk(d, orderId)
    ensures Safe(d)
  {
    forall orderId | orderId in d.orders ensures QtyOk(d, orderId) && RowsOk(d, orderId) && PaidOk(d, orderId) {
      assert forall l :: l in d.orders[orderId].lines ==> l.quantity > 0;
      if d.orders[orderId].paymentId.Some? {
        UntouchedPayment(d.ledger.refunds, d.orders[orderId].paymentId.value);
      }
    }
  }

  lemma {:induction false} UntouchedPayment(rows: seq<Payment.RefundRow>, p: nat)
    requires forall k :: 0 <= k < |rows| ==> rows[k].payment != p
    ensures Payment.RowSum(rows, p) == 0
  {
    if rows != [] {
      UntouchedPayment(rows[1..], p);
    }
  }

  // ---- consequences ----------------------------------------------------------------

  lemma LiveRefundWithinTotal(d: Desk, orderId: nat)
    requires Safe(d) && orderId in d.orders && d.orders[orderId].subtotal > 0
    ensures 0 <= LiveRefund(d.rmas, orderId) <= d.orders[orderId].total
    ensures forall r :: r in d.rmas && r.orderId == orderId ==> r.refundTotal >= 0
  {
    var o := d.orders[orderId];
    assert OrderOk(d, orderId) && QtyOk(d, orderId);
    assert forall r :: r in d.rmas && r.orderId == orderId ==> ReturnOk(o, r) && LinesOk(o.lines, r.lines);
    RefundsFollowValue(o, d.rmas, orderId);
    LiveValueByProducts(o.lines, d.rmas, orderId);
    QtyValueWithinGross(o.lines, d.rmas, orderId);
    var x, v := LiveRefund(d.rmas, orderId), LiveValue(o.lines, d.rmas, orderId);
    ProRataBound(x, v, o.total, o.subtotal);
    LiveRefundNonNegative(d.rmas, orderId);
  }

  /** A pro-rata amount of at most the whole is at most the whole. */
  lemma ProRataBound(x: int, v: int, total: int, subtotal: int)
    requires subtotal * x <= total * v && v <= subtotal && total >= 0 && subtotal > 0
    ensures x <= total
  {
    MulMonotone(v, subtotal, total);
    if x > total {
      MulMonotone(total + 1, x, subtotal);
      Distribute(subtotal, total, 1);
    }
  }

  lemma {:induction false} LiveRefundNonNegative(rs: seq<Return>, orderId: nat)
    requires forall r :: r in rs && r.orderId == orderId ==> r.refundTotal >= 0
    ensures LiveRefund(rs, orderId) >= 0
  {
    if rs != [] {
      assert rs[0] in rs;
      LiveRefundNonNegative(rs[1..], orderId);
    }
  }

  lemma {:induction false} LiveRefundPush(rs: seq<Return>, r: Return, orderId: nat)
    ensures LiveRefund(rs + [r], orderId) == LiveRefund(rs, orderId) + (if Live(r, orderId) then r.refundTotal else 0)
  {
    if rs != [] {
      assert (rs + [r])[1..] == rs[1..] + [r];
      LiveRefundPush(rs[1..], r, orderId);
    }
  }

  /** What has been paid, and what an approved return still asks for, both come out of the live refunds. */
  lemma {:induction false} PaidWithinLive(rs: seq<Return>, l: Payment.Ledger, orderId: nat, p: nat, n: nat, asking: Option<nat>)
    requires n <= |rs|
    requires forall r :: r in rs && r.orderId == orderId ==> r.refundTotal >= 0
    requires forall i :: 0 <= i < |rs| && rs[i].orderId == orderId && Payment.AlreadyApplied(l, p, Key(i)) ==>
               rs[i].status == Approved
    requires asking.Some? ==>
      && asking.value < |rs| && rs[asking.value].orderId == orderId && rs[asking.value].status == Approved
      && !Payment.AlreadyApplied(l, p, Key(asking.value))
    ensures PaidSum(rs, l, orderId, p, n) + (if asking.Some? && asking.value < n then rs[asking.value].refundTotal else 0)
            <= LiveRefund(rs[..n], orderId)
  {
    if n > 0 {
      PaidWithinLive(rs, l, orderId, p, n - 1, asking);
      assert rs[..n] == rs[..n - 1] + [rs[n - 1]];
      LiveRefundPush(rs[..n - 1], rs[n - 1], orderId);
      assert rs[n - 1] in rs;
    }
  }

  lemma OrderPaidWithinLive(d: Desk, orderId: nat, asking: Option<nat>)
    requires Safe(d) && orderId in d.orders && d.orders[orderId].paymentId.Some?
    requires forall r :: r in d.rmas && r.orderId == orderId ==> r.refundTotal >= 0
    requires asking.Some? ==>
      && asking.value < |d.rmas| && d.rmas[asking.value].orderId == orderId && d.rmas[asking.value].status == Approved
      && !Payment.AlreadyApplied(d.ledger, d.orders[orderId].paymentId.value, Key(asking.value))
    ensures PaidSum(d.rmas, d.ledger, orderId, d.orders[orderId].paymentId.value, |d.rmas|)
            + (if asking.Some? then d.rmas[asking.value].refundTotal else 0) <= LiveRefund(d.rmas, orderId)
  {
    var p := d.orders[orderId].paymentId.value;
    forall i | 0 <= i < |d.rmas| && d.rmas[i].orderId == orderId && Payment.AlreadyApplied(d.ledger, p, Key(i))
      ensures d.rmas[i].status == Approved
    {
      AppliedIsApproved(d, orderId, i);
    }
    PaidWithinLive(d.rmas, d.ledger, orderId, p, |d.rmas|, asking);
    assert d.rmas[..|d.rmas|] == d.rmas;
  }

  lemma AppliedIsApproved(d: Desk, orderId: nat, i: nat)
    requires Safe(d) && orderId in d.orders && d.orders[orderId].paymentId.Some?
    requires Payment.AlreadyApplied(d.ledger, d.orders[orderId].paymentId.value, Key(i))
    ensures i < |d.rmas| && d.rmas[i].orderId == orderId && d.rmas[i].status == Approved
  {
    var p := d.orders[orderId].paymentId.value;
    var k :| 0 <= k < |d.ledger.refunds| && d.ledger.refunds[k].payment == p && d.ledger.refunds[k].key == Key(i);
    assert RowsOk(d, orderId) && RowExplained(d, orderId, d.ledger.refunds[k]);
    var j :| 0 <= j < |d.rmas| && Key(i) == Key(j) && d.rmas[j].orderId == orderId && d.rmas[j].status == Approved;
    KeysDiffer(i, j);
  }

  /** Distinct ids have distinct, non-empty keys. */
  lemma KeysDiffer(a: nat, b: nat)
    ensures Key(a) == Key(b) ==> a == b
    ensures Key(a) != ""
  {
    DigitsTell(a, b);
  }

  /**
   A return's refund is never refused by the payment service: it is either a replay or exactly the
   return's own amount, which is positive, so the rule that zero means the whole balance never applies.
   */
  lemma RefundNeverRefused(d: Desk, returnId: nat)
    requires Safe(d) && returnId < |d.rmas| && AsksRefund(d, returnId)
    ensures var r := d.rmas[returnId];
            var p := d.orders[r.orderId].paymentId.value;
            && Payment.RefundOutcome(d.ledger, p, r.refundTotal, Key(returnId)) == Payment.Done
            && (!Payment.AlreadyApplied(d.ledger, p, Key(returnId)) ==>
                  && Payment.Refunds(d.ledger, p, r.refundTotal, Key(returnId))
                  && Payment.RefundApplied(d.ledger, p, r.refundTotal, Key(returnId)).refunds
                     == d.ledger.refunds + [Payment.RefundRow(p, r.refundTotal, Key(returnId))])
  {
    var r := d.rmas[returnId];
    var o := d.orders[r.orderId];
    var p := o.paymentId.value;
    assert OrderOk(d, r.orderId) && PaidOk(d, r.orderId);
    if !Payment.AlreadyApplied(d.ledger, p, Key(returnId)) {
      LiveRefundWithinTotal(d, r.orderId);
      OrderPaidWithinLive(d, r.orderId, Some(returnId));
      assert Payment.IntentOk(d.ledger, p);
    }
  }

  /** What is refunded on a payment never exceeds its order's live refunds, nor the order total. */
  lemma RefundedWithinTotal(d: Desk, orderId: nat)
    requires Safe(d) && orderId in d.orders && d.orders[orderId].paymentId.Some? && d.orders[orderId].subtotal > 0
    ensures d.ledger.intents[d.orders[orderId].paymentId.value].refunded
            <= LiveRefund(d.rmas, orderId) <= d.orders[orderId].total
  {
    assert OrderOk(d, orderId) && PaidOk(d, orderId);
    LiveRefundWithinTotal(d, orderId);
    OrderPaidWithinLive(d, orderId, None);
    assert Payment.IntentOk(d.ledger, d.orders[orderId].paymentId.value);
  }

  /** An order fully returned over k returns is refunded to within k - 1 cents of its total. */
  lemma FullReturnShortfall(d: Desk, orderId: nat)
    requires Safe(d) && orderId in d.orders && d.orders[orderId].subtotal > 0
    requires forall l :: l in d.orders[orderId].lines ==> ReturnedQty(d.rmas, orderId, l.productId) == l.quantity
    ensures LiveCount(d.rmas, orderId) >= 1
    ensures d.orders[orderId].total - (LiveCount(d.rmas, orderId) - 1)
            <= LiveRefund(d.rmas, orderId) <= d.orders[orderId].total
  {
    var o := d.orders[orderId];
    assert OrderOk(d, orderId) && QtyOk(d, orderId);
    assert forall r :: r in d.rmas && r.orderId == orderId ==> ReturnOk(o, r) && LinesOk(o.lines, r.lines);
    LiveRefundWithinTotal(d, orderId);
    RefundsFollowValue(o, d.rmas, orderId);
    LiveValueByProducts(o.lines, d.rmas, orderId);
    QtyValueWithinGross(o.lines, d.rmas, orderId);
    var x, k := LiveRefund(d.rmas, orderId), LiveCount(d.rmas, orderId);
    assert o.total * o.subtotal <= o.subtotal * x + (o.subtotal - 1) * k;
    NoneLiveNothingReturned(o.lines, d.rmas, orderId);
    assert k >= 1;
    ShortBy(o.subtotal, o.total, x, k);
  }

  lemma ShortBy(s: int, t: int, x: int, k: nat)
    requires s > 0 && k >= 1 && t * s <= s * x + (s - 1) * k
    ensures t - (k - 1) <= x
  {
    Distribute(k, s, -1);
    assert (s - 1) * k == s * k - k;
    assert t * s == s * t;
    Distribute(s, x, k);
    Squeeze(s, t, x + k);
  }

  lemma NoneLiveNothingReturned(ls: seq<Line>, rs: seq<Return>, orderId: nat)
    requires Sane(ls) && Total(Gross, ls) > 0
    requires forall l :: l in ls ==> ReturnedQty(rs, orderId, l.productId) == l.quantity
    ensures LiveCount(rs, orderId) >= 1
  {
    assert ls != [];
    assert ls[0] in ls;
    if LiveCount(rs, orderId) == 0 {
      NoneLive(rs, orderId, ls[0].productId);
    }
  }

  lemma {:induction false} NoneLive(rs: seq<Return>, orderId: nat, productId: string)
    requires LiveCount(rs, orderId) == 0
    ensures ReturnedQty(rs, orderId, productId) == 0
  {
    if rs != [] {
      NoneLive(rs[1..], orderId, productId);
    }
  }

  // ---- preservation -------------------------------------------------------------------

  ghost predicate ResolvedOk(o: Order, rs: seq<Return>, orderId: nat, r: Resolved) {
    && FindLine(o.lines, r.productId).Some?
    && 0 < r.quantity <= FindLine(o.lines, r.productId).value.quantity - ReturnedQty(rs, orderId, r.productId)
    && r.value == FindLine(o.lines, r.productId).value.unitPrice * r.quantity
  }

  lemma {:induction false} ResolveSound(o: Order, rs: seq<Return>, orderId: nat, reqs: seq<Req>)
    requires Resolve(o, rs, orderId, reqs).Ok?
    ensures forall r :: r in Resolve(o, rs, orderId, reqs).value ==> ResolvedOk(o, rs, orderId, r)
    decreases |reqs|
  {
    if reqs != [] {
      ResolveSound(o, rs, orderId, reqs[..|reqs| - 1]);
    }
  }

  lemma {:induction false} ValuesAreReturnValue(o: Order, rs: seq<Return>, orderId: nat, rl: seq<Resolved>, rls: seq<ReturnLine>)
    requires |rls| == |rl|
    requires forall i :: 0 <= i < |rl| ==> ResolvedOk(o, rs, orderId, rl[i])
    requires forall i :: 0 <= i < |rl| ==> rls[i].productId == rl[i].productId && rls[i].quantity == rl[i].quantity
    ensures forall r :: r in rls ==> FindLine(o.lines, r.productId).Some?
    ensures ReturnValue(o.lines, rls) == Values(rl)
  {
    forall r | r in rls ensures FindLine(o.lines, r.productId).Some? {
      var i :| 0 <= i < |rls| && rls[i] == r;
      assert ResolvedOk(o, rs, orderId, rl[i]);
    }
    if rl != [] {
      assert ResolvedOk(o, rs, orderId, rl[0]);
      ValuesAreReturnValue(o, rs, orderId, rl[1..], rls[1..]);
    }
  }

  lemma {:induction false} LineQtyDistinct(rls: seq<ReturnLine>, productId: string)
    requires forall i, j :: 0 <= i < j < |rls| ==> rls[i].productId != rls[j].productId
    ensures (forall r :: r in rls ==> r.productId != productId) ==> LineQty(rls, productId) == 0
    ensures forall r :: r in rls && r.productId == productId ==> LineQty(rls, productId) == r.quantity
  {
    if rls != [] {
      LineQtyDistinct(rls[1..], productId);
      assert forall r :: r in rls[1..] ==> r.productId != rls[0].productId;
    }
  }

  lemma {:induction false} ReturnedQtyPush(rs: seq<Return>, r: Return, orderId: nat, productId: string)
    ensures ReturnedQty(rs + [r], orderId, productId) ==
            ReturnedQty(rs, orderId, productId) + (if Live(r, orderId) then LineQty(r.lines, productId) else 0)
  {
    if rs != [] {
      assert (rs + [r])[1..] == rs[1..] + [r];
      ReturnedQtyPush(rs[1..], r, orderId, productId);
    }
  }

  /** The return a request writes is well formed and within what is still returnable. */
  lemma NewReturnOk(d: Desk, ownerId: string, orderId: nat, reqs: seq<Req>)
    requires Safe(d) && Refusal(d, ownerId, orderId, reqs) == None
    ensures var r := NewReturn(d, orderId, reqs);
            && ReturnOk(d.orders[orderId], r)
            && forall l :: l in d.orders[orderId].lines ==>
                 LineQty(r.lines, l.productId) <= l.quantity - ReturnedQty(d.rmas, orderId, l.productId)
  {
    var o := d.orders[orderId];
    assert OrderOk(d, orderId) && QtyOk(d, orderId);
    var todo := if reqs == [] then AllLines(o) else reqs;
    var rl := Resolve(o, d.rmas, orderId, todo).value;
    ResolveSound(o, d.rmas, orderId, todo);
    var rls := RefundLines(o.total, o.subtotal, rl);
    ResolvedWithin(o, d.rmas, orderId, rl, rls);
    LinesSumToShare(o.total, o.subtotal, rl);
  }

  lemma ResolvedWithin(o: Order, rs: seq<Return>, orderId: nat, rl: seq<Resolved>, rls: seq<ReturnLine>)
    requires WellPriced(o) && |rls| == |rl| && !Repeats(rl)
    requires forall r :: r in rl ==> ResolvedOk(o, rs, orderId, r)
    requires forall i :: 0 <= i < |rl| ==> rls[i].productId == rl[i].productId && rls[i].quantity == rl[i].quantity
    requires forall l :: l in o.lines ==> ReturnedQty(rs, orderId, l.productId) <= l.quantity
    ensures LinesOk(o.lines, rls) && ReturnValue(o.lines, rls) == Values(rl)
    ensures forall l :: l in o.lines ==> LineQty(rls, l.productId) <= l.quantity - ReturnedQty(rs, orderId, l.productId)
  {
    ValuesAreReturnValue(o, rs, orderId, rl, rls);
    forall r | r in rls ensures r.quantity > 0 {
      var i :| 0 <= i < |rls| && rls[i] == r;
      assert rl[i] in rl;
    }
    forall l | l in o.lines ensures LineQty(rls, l.productId) <= l.quantity - ReturnedQty(rs, orderId, l.productId) {
      LineQtyDistinct(rls, l.productId);
      FindLineOf(o.lines, l);
      if exists r :: r in rls && r.productId == l.productId {
        var r :| r in rls && r.productId == l.productId;
        var i :| 0 <= i < |rls| && rls[i] == r;
        assert rl[i] in rl;
      }
    }
  }

  lemma {:induction false} PaidSumSame(rs: seq<Return>, rs': seq<Return>, l: Payment.Ledger, orderId: nat, p: nat, n: nat)
    requires n <= |rs| && n <= |rs'|
    requires forall i :: 0 <= i < n ==> rs[i].orderId == rs'[i].orderId && rs[i].refundTotal == rs'[i].refundTotal
    ensures PaidSum(rs, l, orderId, p, n) == PaidSum(rs', l, orderId, p, n)
  {
    if n > 0 {
      PaidSumSame(rs, rs', l, orderId, p, n - 1);
    }
  }

  /** A new return leaves what was decided and paid as it was. */
  lemma RequestKeepsPaid(d: Desk, e: Desk, r: Return, k: nat)
    requires Safe(d) && e == d.(rmas := d.rmas + [r]) && r.status == Requested && k in d.orders
    ensures RowsOk(e, k) && PaidOk(e, k)
  {
    assert RowsOk(d, k) && PaidOk(d, k);
    if e.orders[k].paymentId.Some? {
      var p := e.orders[k].paymentId.value;
      PaidSumSame(d.rmas, e.rmas, d.ledger, k, p, |d.rmas|);
      if Payment.AlreadyApplied(d.ledger, p, Key(|d.rmas|)) {
        AppliedIsApproved(d, k, |d.rmas|);
      }
      forall j | 0 <= j < |e.ledger.refunds| && e.ledger.refunds[j].payment == p
        ensures RowExplained(e, k, e.ledger.refunds[j])
      {
        assert RowExplained(d, k, d.ledger.refunds[j]);
        var i :| 0 <= i < |d.rmas| && d.ledger.refunds[j].key == Key(i) && d.rmas[i].orderId == k
                 && d.rmas[i].status == Approved && d.ledger.refunds[j].amount == d.rmas[i].refundTotal;
        assert e.rmas[i] == d.rmas[i];
      }
    }
  }

  lemma RequestKeepsSafe(d: Desk, ownerId: string, orderId: nat, reqs: seq<Req>)
    requires Safe(d)
    ensures Safe(WithRequest(d, ownerId, orderId, reqs))
  {
    var e := WithRequest(d, ownerId, orderId, reqs);
    if Refusal(d, ownerId, orderId, reqs) == None {
      var r := NewReturn(d, orderId, reqs);
      NewReturnOk(d, ownerId, orderId, reqs);
      forall k | k in e.orders ensures OrderOk(e, k) && QtyOk(e, k) && RowsOk(e, k) && PaidOk(e, k) {
        assert OrderOk(d, k) && QtyOk(d, k);
        forall l | l in e.orders[k].lines ensures ReturnedQty(e.rmas, k, l.productId) <= l.quantity {
          ReturnedQtyPush(d.rmas, r, k, l.productId);
        }
        RequestKeepsPaid(d, e, r, k);
      }
    }
  }

  lemma {:induction false} DecisionLowersQty(rs: seq<Return>, i: nat, r: Return, orderId: nat, productId: string)
    requires i < |rs| && r == rs[i].(status := r.status) && (rs[i].status == Rejected ==> r.status == Rejected)
    requires LineQty(rs[i].lines, productId) >= 0
    ensures ReturnedQty(rs[i := r], orderId, productId) <= ReturnedQty(rs, orderId, productId)
  {
    if i > 0 {
      assert rs[i := r][1..] == rs[1..][i - 1 := r];
      DecisionLowersQty(rs[1..], i - 1, r, orderId, productId);
    } else {
      assert rs[i := r][1..] == rs[1..];
    }
  }

  lemma {:induction false} LineQtyNonNegative(rls: seq<ReturnLine>, productId: string)
    requires forall r :: r in rls ==> r.quantity > 0
    ensures LineQty(rls, productId) >= 0
  {
    if rls != [] {
      assert rls[0] in rls;
      LineQtyNonNegative(rls[1..], productId);
    }
  }

  /** A decision leaves what was paid as it was. */
  lemma DecisionKeepsPaid(d: Desk, e: Desk, returnId: nat, r: Return, k: nat)
    requires Safe(d) && returnId < |d.rmas| && e == d.(rmas := d.rmas[returnId := r]) && k in d.orders
    requires r == d.rmas[returnId].(status := r.status) && (d.rmas[returnId].status == Approved ==> r.status == Approved)
    ensures RowsOk(e, k) && PaidOk(e, k)
  {
    assert RowsOk(d, k) && PaidOk(d, k);
    if e.orders[k].paymentId.Some? {
      var p := e.orders[k].paymentId.value;
      PaidSumSame(d.rmas, e.rmas, d.ledger, k, p, |d.rmas|);
      forall j | 0 <= j < |e.ledger.refunds| && e.ledger.refunds[j].payment == p
        ensures RowExplained(e, k, e.ledger.refunds[j])
      {
        assert RowExplained(d, k, d.ledger.refunds[j]);
        var i :| 0 <= i < |d.rmas| && d.ledger.refunds[j].key == Key(i) && d.rmas[i].orderId == k
                 && d.rmas[i].status == Approved && d.ledger.refunds[j].amount == d.rmas[i].refundTotal;
        assert e.rmas[i].status == Approved;
      }
    }
  }

  lemma DecisionKeepsSafe(d: Desk, returnId: nat, approve: bool)
    requires Safe(d)
    ensures Safe(AfterDecision(d, returnId, approve))
  {
    var e := AfterDecision(d, returnId, approve);
    if returnId < |d.rmas| && Decided(d.rmas[returnId], approve).Some? {
      var r := Decided(d.rmas[returnId], approve).value;
      assert ReturnOk(d.orders[d.rmas[returnId].orderId], d.rmas[returnId]);
      forall k | k in e.orders ensures OrderOk(e, k) && QtyOk(e, k) && RowsOk(e, k) && PaidOk(e, k) {
        assert OrderOk(d, k) && QtyOk(d, k);
        forall l | l in e.orders[k].lines ensures ReturnedQty(e.rmas, k, l.productId) <= l.quantity {
          LineQtyNonNegative(d.rmas[returnId].lines, l.productId);
          DecisionLowersQty(d.rmas, returnId, r, k, l.productId);
        }
        DecisionKeepsPaid(d, e, returnId, r, k);
      }
    }
  }

  lemma {:induction false} PaidSumGrows(rs: seq<Return>, l: Payment.Ledger, m: Payment.Ledger, orderId: nat, p: nat, returnId: nat, n: nat)
    requires n <= |rs| && returnId < |rs| && rs[returnId].orderId == orderId
    requires !Payment.AlreadyApplied(l, p, Key(returnId))
    requires m.refunds == l.refunds + [Payment.RefundRow(p, rs[returnId].refundTotal, Key(returnId))]
    ensures PaidSum(rs, m, orderId, p, n) == PaidSum(rs, l, orderId, p, n) + (if returnId < n then rs[returnId].refundTotal else 0)
  {
    if n > 0 {
      PaidSumGrows(rs, l, m, orderId, p, returnId, n - 1);
      AppliedAfter(l, m, p, returnId, rs[returnId].refundTotal, p, n - 1);
    }
  }

  /** A new refund row makes its own key applied on its payment, and no other. */
  lemma AppliedAfter(l: Payment.Ledger, m: Payment.Ledger, p: nat, i: nat, amount: int, q: nat, j: nat)
    requires m.refunds == l.refunds + [Payment.RefundRow(p, amount, Key(i))]
    ensures Payment.AlreadyApplied(m, q, Key(j)) <==> Payment.AlreadyApplied(l, q, Key(j)) || (q == p && i == j)
  {
    KeysDiffer(i, j);
    KeysDiffer(j, i);
    var n := |l.refunds|;
    if q == p && i == j {
      assert m.refunds[n].payment == q && m.refunds[n].key == Key(j);
    }
    if Payment.AlreadyApplied(l, q, Key(j)) {
      var k :| 0 <= k < n && l.refunds[k].payment == q && l.refunds[k].key == Key(j);
      assert m.refunds[k].payment == q && m.refunds[k].key == Key(j);
    }
  }

  lemma {:induction false} PaidSumUntouched(rs: seq<Return>, l: Payment.Ledger, m: Payment.Ledger, orderId: nat, q: nat, p: nat, i: nat, amount: int, n: nat)
    requires n <= |rs| && q != p
    requires m.refunds == l.refunds + [Payment.RefundRow(p, amount, Key(i))]
    ensures PaidSum(rs, m, orderId, q, n) == PaidSum(rs, l, orderId, q, n)
  {
    if n > 0 {
      PaidSumUntouched(rs, l, m, orderId, q, p, i, amount, n - 1);
      AppliedAfter(l, m, p, i, amount, q, n - 1);
    }
  }

  lemma RefundKeepsSafe(d: Desk, returnId: nat)
    requires Safe(d) && returnId < |d.rmas| && AsksRefund(d, returnId)
    ensures Safe(d.(ledger := Payment.RefundApplied(d.ledger, d.orders[d.rmas[returnId].orderId].paymentId.value,
                                                   d.rmas[returnId].refundTotal, Key(returnId))))
  {
    var r := d.rmas[returnId];
    var p := d.orders[r.orderId].paymentId.value;
    var op := Payment.Refund(p, r.refundTotal, Key(returnId));
    var m := Payment.RefundApplied(d.ledger, p, r.refundTotal, Key(returnId));
    var e := d.(ledger := m);
    RefundNeverRefused(d, returnId);
    Payment.StepKeepsConsistent(d.ledger, op);
    if !Payment.AlreadyApplied(d.ledger, p, Key(returnId)) {
      assert OrderOk(d, r.orderId);
      var row := Payment.RefundRow(p, r.refundTotal, Key(returnId));
      forall k | k in e.orders ensures OrderOk(e, k) && QtyOk(e, k) && RowsOk(e, k) && PaidOk(e, k) {
        assert OrderOk(d, k) && QtyOk(d, k) && RowsOk(d, k) && PaidOk(d, k);
        if e.orders[k].paymentId.Some? {
          var q := e.orders[k].paymentId.value;
          Payment.RowSumPush(d.ledger.refunds, row, q);
          if q == p {
            assert k == r.orderId;
            PaidSumGrows(d.rmas, d.ledger, m, k, p, returnId, |d.rmas|);
          } else {
            PaidSumUntouched(d.rmas, d.ledger, m, k, q, p, returnId, r.refundTotal, |d.rmas|);
          }
          forall j | 0 <= j < |m.refunds| && m.refunds[j].payment == q ensures RowExplained(e, k, m.refunds[j]) {
            if j < |d.ledger.refunds| {
              assert RowExplained(d, k, d.ledger.refunds[j]);
            } else {
              assert d.rmas[returnId].orderId == k;
            }
          }
        }
      }
    }
  }

  lemma StepKeepsSafe(d: Desk, op: Op)
    requires Safe(d)
    ensures Safe(Step(d, op))
  {
    match op {
      case Request(ownerId, orderId, reqs) => RequestKeepsSafe(d, ownerId, orderId, reqs);
      case Decide(returnId, approve, paymentUp) =>
        DecisionKeepsSafe(d, returnId, approve);
        var e := AfterDecision(d, returnId, approve);
        if returnId < |d.rmas| && AsksRefund(e, returnId) {
          RefundKeepsSafe(e, returnId);
        }
    }
  }

  /** The payment was refunded this amount under this key, once. */
  ghost predicate PaidBackOnce(l: Payment.Ledger, payment: nat, cents: int, key: string) {
    && (exists k :: 0 <= k < |l.refunds| && l.refunds[k] == Payment.RefundRow(payment, cents, key))
    && (forall j, k :: 0 <= j < k < |l.refunds| ==>
          !(l.refunds[j].payment == l.refunds[k].payment == payment && l.refunds[j].key == l.refunds[k].key == key))
  }

  /** An approval answered without an error leaves the money paid back: once, however often it is repeated. */
  lemma ApprovalPaysBack(d: Desk, returnId: nat, paymentUp: bool)
    requires Safe(d) && DecisionReply(d, returnId, true, paymentUp) == Ok(())
    ensures var e := Step(d, Decide(returnId, true, paymentUp));
            && Safe(e) && e.orders == d.orders && returnId < |d.rmas|
            && e.rmas == d.rmas[returnId := d.rmas[returnId].(status := Approved)]
            && e.rmas[returnId].orderId in e.orders
            && var payment, cents := e.orders[e.rmas[returnId].orderId].paymentId, e.rmas[returnId].refundTotal;
               if payment.Some? && cents > 0 then
                 PaysBack(d.ledger, e.ledger, payment.value, cents, Key(returnId))
                 && PaidBackOnce(e.ledger, payment.value, cents, Key(returnId))
               else e.ledger == d.ledger
  {
    StepKeepsSafe(d, Decide(returnId, true, paymentUp));
    ApprovalAsks(d, returnId, paymentUp);
    var mid := AfterDecision(d, returnId, true);
    DecisionKeepsSafe(d, returnId, true);
    if AsksRefund(mid, returnId) {
      AskedIsPaidBack(mid, Step(d, Decide(returnId, true, paymentUp)), returnId);
    }
  }

  /** An approval answered without an error has made its refund call, if there was one to make. */
  lemma ApprovalAsks(d: Desk, returnId: nat, paymentUp: bool)
    requires Safe(d) && DecisionReply(d, returnId, true, paymentUp) == Ok(())
    ensures returnId < |d.rmas| && d.rmas[returnId].orderId in d.orders
    ensures var mid := d.(rmas := d.rmas[returnId := d.rmas[returnId].(status := Approved)]);
            var e := Step(d, Decide(returnId, true, paymentUp));
            && AfterDecision(d, returnId, true) == mid
            && e == (if AsksRefund(mid, returnId) then
                       mid.(ledger := Payment.RefundApplied(d.ledger, d.orders[d.rmas[returnId].orderId].paymentId.value,
                                                            d.rmas[returnId].refundTotal, Key(returnId)))
                     else mid)
  {
    DecisionFailsOnlyUnreached(d, returnId, true, paymentUp);
  }

  /** The refund an approved return asks for is paid back, once. */
  lemma AskedIsPaidBack(mid: Desk, e: Desk, returnId: nat)
    requires Safe(mid) && returnId < |mid.rmas| && AsksRefund(mid, returnId) && Safe(e)
    requires e == mid.(ledger := Payment.RefundApplied(mid.ledger, mid.orders[mid.rmas[returnId].orderId].paymentId.value,
                                                       mid.rmas[returnId].refundTotal, Key(returnId)))
    ensures var payment, cents := mid.orders[mid.rmas[returnId].orderId].paymentId.value, mid.rmas[returnId].refundTotal;
            PaysBack(mid.ledger, e.ledger, payment, cents, Key(returnId)) && PaidBackOnce(e.ledger, payment, cents, Key(returnId))
  {
    var r := mid.rmas[returnId];
    var payment := mid.orders[r.orderId].paymentId.value;
    KeyNonEmpty(returnId);
    RefundNeverRefused(mid, returnId);
    assert OrderOk(mid, r.orderId);
    Payment.RefundFigures(mid.ledger, payment, r.refundTotal, Key(returnId));
    assert Payment.Made(e.ledger, payment, Key(returnId)) by {
      if !Payment.Made(mid.ledger, payment, Key(returnId)) {
        assert e.ledger.refunds[|mid.ledger.refunds|] == Payment.RefundRow(payment, r.refundTotal, Key(returnId));
      }
    }
    MadeIsOwn(e, returnId);
  }

  /** What was refunded under a return's key is that return's amount. */
  lemma MadeIsOwn(d: Desk, returnId: nat)
    requires Safe(d) && returnId < |d.rmas| && d.rmas[returnId].orderId in d.orders
    requires d.orders[d.rmas[returnId].orderId].paymentId.Some?
    requires Payment.Made(d.ledger, d.orders[d.rmas[returnId].orderId].paymentId.value, Key(returnId))
    ensures PaidBackOnce(d.ledger, d.orders[d.rmas[returnId].orderId].paymentId.value, d.rmas[returnId].refundTotal, Key(returnId))
  {
    var orderId := d.rmas[returnId].orderId;
    var p := d.orders[orderId].paymentId.value;
    var k :| 0 <= k < |d.ledger.refunds| && d.ledger.refunds[k].payment == p && d.ledger.refunds[k].key == Key(returnId);
    assert RowsOk(d, orderId) && RowExplained(d, orderId, d.ledger.refunds[k]);
    var i :| 0 <= i < |d.rmas| && Key(returnId) == Key(i) && d.rmas[i].orderId == orderId
             && d.rmas[i].status == Approved && d.ledger.refunds[k].amount == d.rmas[i].refundTotal;
    KeysDiffer(returnId, i);
    assert d.ledger.refunds[k] == Payment.RefundRow(p, d.rmas[returnId].refundTotal, Key(returnId));
  }

  /** A refusal, a rejection and an approval whose refund failed move no money; the first leaves the return as it was. */
  lemma OtherDecisionsPayNothing(d: Desk, returnId: nat, approve: bool, paymentUp: bool)
    requires Safe(d) && (!approve || DecisionReply(d, returnId, approve, paymentUp).Err?)
    ensures var e := Step(d, Decide(returnId, approve, paymentUp));
            var reply := DecisionReply(d, returnId, approve, paymentUp);
            && e.orders == d.orders && e.ledger == d.ledger
            && (reply in {Err(ReturnNotFound), Err(BadTransition)} ==> e == d)
            && (reply in {Ok(()), Err(RefundFailed)} ==>
                  returnId < |d.rmas|
                  && e.rmas == d.rmas[returnId := d.rmas[returnId].(status := if approve then Approved else Rejected)])
  {
    var mid := AfterDecision(d, returnId, approve);
    if returnId < |d.rmas| && Decided(d.rmas[returnId], approve).Some? {
      DecisionFailsOnlyUnreached(d, returnId, approve, paymentUp);
    }
  }

  /** A decision that the return allows fails only when the payment service cannot be reached, and only an approval does. */
  lemma DecisionFailsOnlyUnreached(d: Desk, returnId: nat, approve: bool, paymentUp: bool)
    requires Safe(d) && returnId < |d.rmas| && Decided(d.rmas[returnId], approve).Some?
    ensures DecisionReply(d, returnId, approve, paymentUp) ==
            if approve && !paymentUp && AsksRefund(AfterDecision(d, returnId, approve), returnId) then Err(RefundFailed) else Ok(())
  {
    var e := AfterDecision(d, returnId, approve);
    DecisionKeepsSafe(d, returnId, approve);
    if AsksRefund(e, returnId) {
      RefundNeverRefused(e, returnId);
    }
  }

  /**
   Refund conservation: over any serial run of requests and decisions, retries and unreachable
   payment calls included, the invariant holds, and with it everything stated above.
   */
  lemma {:induction false} RunKeepsSafe(d: Desk, ops: seq<Op>)
    requires Safe(d)
    ensures Safe(Run(d, ops))
    decreases |ops|
  {
    if ops != [] {
      StepKeepsSafe(d, ops[0]);
      RunKeepsSafe(Step(d, ops[0]), ops[1..]);
    }
  }
}
