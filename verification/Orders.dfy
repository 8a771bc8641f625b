/** The order aggregate and its state machine. */
module Orders {
  import opened Base
  import opened Pricing

  datatype Status = PendingPayment | Confirmed | Cancelled | Fulfilled

  /**
   An orders row with its lines. released and voided say whether the compensation marks
   reservation_released_at and payment_voided_at are set.
   */
  datatype Order = Order(
    ownerId: string, status: Status, lines: seq<Line>,
    subtotal: int, discount: int, tax: int, total: int,
    paymentId: Option<nat>, reservationId: Option<nat>,
    cancelReason: string, released: bool, voided: bool, updatedAt: int)

  predicate CanTransition(from: Status, to: Status) {
    match from
    case PendingPayment => to == Confirmed || to == Cancelled
    case Confirmed => to == Fulfilled || to == Cancelled
    case _ => false
  }

  datatype Move = Confirm | Cancel(reason: string) | CancelIfPending(reason: string) | Fulfill

  /** What a mutation leaves of the order, or None when the state machine refuses it. */
  function Moved(o: Order, m: Move): Option<Order> {
    match m
    case Confirm => To(o, Confirmed)
    case Fulfill => To(o, Fulfilled)
    case Cancel(reason) =>
      if o.status == Cancelled then Some(o)
      else if CanTransition(o.status, Cancelled) then Some(o.(status := Cancelled, cancelReason := reason)) else None
    case CancelIfPending(reason) =>
      if o.status != PendingPayment then Some(o) else Some(o.(status := Cancelled, cancelReason := reason))
  }

  function To(o: Order, to: Status): Option<Order> {
    if o.status == to then Some(o)
    else if CanTransition(o.status, to) then Some(o.(status := to)) else None
  }

  /** The figures an order keeps from its quote. */
  ghost predicate WellPriced(o: Order) {
    && DistinctProducts(o.lines) && Sane(o.lines)
    && o.subtotal == Total(Gross, o.lines)
    && o.total >= 0
  }

  /** The moves of the order state machine. */
  const MOVES: set<(Status, Status)> :=
    {(PendingPayment, Confirmed), (PendingPayment, Cancelled), (Confirmed, Fulfilled), (Confirmed, Cancelled)}

  /** Where each request leads: along a move, or nowhere if the order is there already, or to a refusal. */
  lemma MovedFigures(o: Order, reason: string)
    ensures Moved(o, Confirm) ==
            (if o.status == Confirmed then Some(o) else if (o.status, Confirmed) in MOVES then Some(o.(status := Confirmed)) else None)
    ensures Moved(o, Fulfill) ==
            (if o.status == Fulfilled then Some(o) else if (o.status, Fulfilled) in MOVES then Some(o.(status := Fulfilled)) else None)
    ensures Moved(o, Cancel(reason)) ==
            (if o.status == Cancelled then Some(o)
             else if (o.status, Cancelled) in MOVES then Some(o.(status := Cancelled, cancelReason := reason)) else None)
    ensures Moved(o, CancelIfPending(reason)) ==
            Some(if o.status == PendingPayment then o.(status := Cancelled, cancelReason := reason) else o)
  {
  }

  /** CANCELLED and FULFILLED are final, and nothing but the status and its reason moves. */
  lemma MovedKeepsFinal(o: Order, m: Move)
    requires Moved(o, m).Some?
    ensures var p := Moved(o, m).value;
            && p == o.(status := p.status, cancelReason := p.cancelReason)
            && (o.status == Cancelled || o.status == Fulfilled ==> p == o)
            && (p.status == Fulfilled ==> o.status == Confirmed || o.status == Fulfilled)
            && (p.status == Confirmed ==> o.status == PendingPayment || o.status == Confirmed)
  {
  }
}
