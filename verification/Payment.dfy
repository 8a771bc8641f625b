/**
 The payment service's ledger: intents, their state machine, refunds and the events they emit.

 Payment ids are positions in the append-only payments table.
 */
module Payment {
  import opened Base
  import opened Money

  datatype Status = RequiresConfirmation | Authorized | Failed | Refunded | Voided

  datatype Intent = Intent(orderRef: nat, amount: int, status: Status, refunded: int)

  datatype RefundRow = RefundRow(payment: nat, amount: int, key: string)

  datatype Event =
    | AuthorizedEvent(payment: nat, orderRef: nat)
    | FailedEvent(payment: nat, orderRef: nat)
    | RefundedEvent(payment: nat, amount: int)

  datatype Ledger = Ledger(intents: seq<Intent>, refunds: seq<RefundRow>, outbox: seq<Event>)

  datatype Reason = OrderIdRequired | BadAmount | NotFound | BadTransition | NotRefundable | RefundExceedsBalance

  datatype Outcome = Done | Refused(reason: Reason)

  predicate CanTransition(from: Status, to: Status) {
    match from
    case RequiresConfirmation => to == Authorized || to == Failed || to == Voided
    case Authorized => to == Voided
    case _ => false
  }

  function EventsFor(id: nat, i: Intent, to: Status): seq<Event> {
    match to
    case Authorized => [AuthorizedEvent(id, i.orderRef)]
    case Failed => [FailedEvent(id, i.orderRef)]
    case _ => []
  }

  // ---- what each transaction does to the ledger ------------------------------

  function Created(l: Ledger, orderRef: nat, cents: int): Ledger {
    l.(intents := l.intents + [Intent(orderRef, cents, RequiresConfirmation, 0)])
  }

  function TransitionOutcome(l: Ledger, id: nat, to: Status): Outcome {
    if id >= |l.intents| then Refused(NotFound)
    else if l.intents[id].status != to && !CanTransition(l.intents[id].status, to) then Refused(BadTransition)
    else Done
  }

  function Transitioned(l: Ledger, id: nat, to: Status): Ledger {
    if TransitionOutcome(l, id, to) != Done || l.intents[id].status == to then l
    else l.(intents := l.intents[id := l.intents[id].(status := to)],
            outbox := l.outbox + EventsFor(id, l.intents[id], to))
  }

  predicate AlreadyApplied(l: Ledger, id: nat, key: string) {
    key != "" && exists k :: 0 <= k < |l.refunds| && l.refunds[k].payment == id && l.refunds[k].key == key
  }

  /** The amount a request resolves to; a request of zero or less means all that is left. */
  function Effective(i: Intent, cents: int): int {
    if cents <= 0 then i.amount - i.refunded else cents
  }

  function RefundOutcome(l: Ledger, id: nat, cents: int, key: string): Outcome {
    if id >= |l.intents| then Refused(NotFound)
    else if AlreadyApplied(l, id, key) then Done
    else
      var i := l.intents[id];
      if i.status != Authorized && i.status != Status.Refunded then Refused(NotRefundable)
      else if Effective(i, cents) > i.amount - i.refunded && Effective(i, cents) > 0 then Refused(RefundExceedsBalance)
      else Done
  }

  /** Whether the request changes anything: not a replay, and something is left to refund. */
  predicate Refunds(l: Ledger, id: nat, cents: int, key: string) {
    RefundOutcome(l, id, cents, key) == Done && !AlreadyApplied(l, id, key) && Effective(l.intents[id], cents) > 0
  }

  function RefundApplied(l: Ledger, id: nat, cents: int, key: string): Ledger {
    if !Refunds(l, id, cents, key) then l
    else
      var i := l.intents[id];
      var a := Effective(i, cents);
      var status := if i.refunded + a >= i.amount then Status.Refunded else i.status;
      Ledger(l.intents[id := i.(refunded := i.refunded + a, status := status)],
             l.refunds + [RefundRow(id, a, key)],
             l.outbox + [RefundedEvent(id, a)])
  }

  // ---- the store ---------------------------------------------------------------

  class PaymentStore {
    var intents: seq<Intent>
    var refunds: seq<RefundRow>
    var outbox: seq<Event>

    function State(): Ledger
      reads this
    {
      Ledger(intents, refunds, outbox)
    }

    constructor ()
      ensures State() == Ledger([], [], [])
    {
      intents, refunds, outbox := [], [], [];
    }

    /** CreatePayment: the amount arrives in wire form, canonical or not, and must come to at least a cent. */
    method Create(orderRef: Option<nat>, currency: string, units: int, nanos: int32) returns (r: Result<nat, Reason>)
      modifies this
      ensures var cents := FromUnitsNanos(currency, units, nanos).cents;
              if orderRef == None then r == Err(OrderIdRequired) && State() == old(State())
              else if cents <= 0 then r == Err(BadAmount) && State() == old(State())
              else r == Ok(old(|intents|)) && State() == Created(old(State()), orderRef.value, cents)
    {
      if orderRef == None {
        return Err(OrderIdRequired);
      }
      var cents := units * 100 + GoDiv(nanos, 10_000_000);
      if cents <= 0 {
        return Err(BadAmount);
      }
      intents := intents + [Intent(orderRef.value, cents, RequiresConfirmation, 0)];
      r := Ok(|intents| - 1);
    }

    method Transition(id: nat, to: Status) returns (r: Outcome)
      modifies this
      ensures r == TransitionOutcome(old(State()), id, to)
      ensures State() == Transitioned(old(State()), id, to)
    {
      if id >= |intents| {
        return Refused(NotFound);
      }
      var i := intents[id];
      if i.status == to {
        return Done;
      }
      if !CanTransition(i.status, to) {
        return Refused(BadTransition);
      }
      intents := intents[id := i.(status := to)];
      outbox := outbox + EventsFor(id, i, to);
      r := Done;
    }

    /** Scans the refund rows of one payment for a key. */
    method RefundAlreadyApplied(id: nat, key: string) returns (seen: bool)
      ensures seen == AlreadyApplied(State(), id, key)
    {
      if key == "" {
        return false;
      }
      var k := 0;
      while k < |refunds|
        invariant 0 <= k <= |refunds|
        invariant forall j :: 0 <= j < k ==> !(refunds[j].payment == id && refunds[j].key == key)
      {
        if refunds[k].payment == id && refunds[k].key == key {
          return true;
        }
        k := k + 1;
      }
      seen := false;
    }

    method Refund(id: nat, cents: int, key: string) returns (r: Outcome)
      modifies this
      ensures r == RefundOutcome(old(State()), id, cents, key)
      ensures State() == RefundApplied(old(State()), id, cents, key)
    {
      if id >= |intents| {
        return Refused(NotFound);
      }
      var i := intents[id];
      var done := RefundAlreadyApplied(id, key);
      if done {
        return Done;
      }
      if i.status != Authorized && i.status != Status.Refunded {
        return Refused(NotRefundable);
      }
      var remaining := i.amount - i.refunded;
      var amount := cents;
      if amount <= 0 {
        amount := remaining;
      }
      if amount <= 0 {
        return Done;
      }
      if amount > remaining {
        return Refused(RefundExceedsBalance);
      }
      refunds := refunds + [RefundRow(id, amount, key)];
      i := i.(refunded := i.refunded + amount);
      if i.refunded >= i.amount {
        i := i.(status := Status.Refunded);
      }
      intents := intents[id := i];
      outbox := outbox + [RefundedEvent(id, amount)];
      r := Done;
    }
  }

  // ---- what each call does, in figures ----------------------------------------------

  /** The moves of the payment state machine. */
  const MOVES: set<(Status, Status)> :=
    {(RequiresConfirmation, Authorized), (RequiresConfirmation, Failed), (RequiresConfirmation, Voided), (Authorized, Voided)}

  /**
   A transition is refused unless it is one of the moves, or none at all. A move changes one status, and an
   authorisation or a failure is announced once, with its order; nothing else is.
   */
  lemma TransitionFigures(l: Ledger, id: nat, to: Status)
    requires id < |l.intents|
    ensures var from := l.intents[id].status;
            var m := Transitioned(l, id, to);
            && TransitionOutcome(l, id, to) == (if from == to || (from, to) in MOVES then Done else Refused(BadTransition))
            && m.refunds == l.refunds
            && (if (from, to) !in MOVES then m == l
                else && m.intents == l.intents[id := Intent(l.intents[id].orderRef, l.intents[id].amount, to, l.intents[id].refunded)]
                     && (to == Authorized ==> m.outbox == l.outbox + [AuthorizedEvent(id, l.intents[id].orderRef)])
                     && (to == Failed ==> m.outbox == l.outbox + [FailedEvent(id, l.intents[id].orderRef)])
                     && (to == Voided ==> m.outbox == l.outbox))
  {
  }

  /** Whether a refund under this key was made on this payment. */
  predicate Made(l: Ledger, id: nat, key: string) {
    exists k :: 0 <= k < |l.refunds| && l.refunds[k].payment == id && l.refunds[k].key == key
  }

  /**
   A request asks for its amount, or for all that is left if that is not positive. Unless the key was used before, it
   is refused on a payment that is not authorised, or for more than is left; else the balance, the row and the event
   all move by what it asked for, and the payment is REFUNDED when nothing is left.
   */
  lemma RefundFigures(l: Ledger, id: nat, cents: int, key: string)
    requires id < |l.intents|
    ensures var i := l.intents[id];
            var left := i.amount - i.refunded;
            var asked := if cents > 0 then cents else left;
            var m := RefundApplied(l, id, cents, key);
            if key != "" && Made(l, id, key) then RefundOutcome(l, id, cents, key) == Done && m == l
            else if i.status !in {Authorized, Status.Refunded} then RefundOutcome(l, id, cents, key) == Refused(NotRefundable) && m == l
            else if asked <= 0 then RefundOutcome(l, id, cents, key) == Done && m == l
            else if asked > left then RefundOutcome(l, id, cents, key) == Refused(RefundExceedsBalance) && m == l
            else && RefundOutcome(l, id, cents, key) == Done
                 && m.refunds == l.refunds + [RefundRow(id, asked, key)]
                 && m.outbox == l.outbox + [RefundedEvent(id, asked)]
                 && m.intents == l.intents[id := Intent(i.orderRef, i.amount, if asked == left then Status.Refunded else i.status,
                                                        i.refunded + asked)]
  {
  }

  // ---- runs -------------------------------------------------------------------

  datatype Op =
    | Create(orderRef: nat, cents: int)
    | Move(id: nat, to: Status)
    | Refund(id: nat, cents: int, key: string)

  function Step(l: Ledger, op: Op): Ledger {
    match op
    case Create(o, cents) => if cents <= 0 then l else Created(l, o, cents)
    case Move(id, to) => Transitioned(l, id, to)
    case Refund(id, cents, key) => RefundApplied(l, id, cents, key)
  }

  function Run(l: Ledger, ops: seq<Op>): Ledger
    decreases |ops|
  {
    if ops == [] then l else Run(Step(l, ops[0]), ops[1..])
  }

  const EMPTY := Ledger([], [], [])

  function RowSum(rows: seq<RefundRow>, id: nat): int {
    if rows == [] then 0 else (if rows[0].payment == id then rows[0].amount else 0) + RowSum(rows[1..], id)
  }

  function EventSum(es: seq<Event>, id: nat): int {
    if es == [] then 0
    else (if es[0].RefundedEvent? && es[0].payment == id then es[0].amount else 0) + EventSum(es[1..], id)
  }

  lemma {:induction false} RowSumPush(rows: seq<RefundRow>, r: RefundRow, id: nat)
    ensures RowSum(rows + [r], id) == RowSum(rows, id) + (if r.payment == id then r.amount else 0)
  {
    if rows != [] {
      assert (rows + [r])[1..] == rows[1..] + [r];
      RowSumPush(rows[1..], r, id);
    }
  }

  lemma {:induction false} EventSumPush(es: seq<Event>, e: Event, id: nat)
    ensures EventSum(es + [e], id) == EventSum(es, id) + (if e.RefundedEvent? && e.payment == id then e.amount else 0)
  {
    if es != [] {
      assert (es + [e])[1..] == es[1..] + [e];
      EventSumPush(es[1..], e, id);
    }
  }

  ghost predicate IntentOk(l: Ledger, id: nat)
    requires id < |l.intents|
  {
    var i := l.intents[id];
    && 0 <= i.refunded <= i.amount && i.amount > 0
    && i.refunded == RowSum(l.refunds, id) == EventSum(l.outbox, id)
    && (i.status == Status.Refunded <==> i.refunded == i.amount)
    && (i.status == RequiresConfirmation || i.status == Failed ==> i.refunded == 0)
  }

  /** Each non-empty key buys at most one refund a payment, and every refund row is of an intent. */
  ghost predicate KeysOnce(l: Ledger) {
    && (forall j, k :: 0 <= j < k < |l.refunds| && l.refunds[j].key != "" ==>
          !(l.refunds[j].payment == l.refunds[k].payment && l.refunds[j].key == l.refunds[k].key))
    && (forall j :: 0 <= j < |l.refunds| ==> l.refunds[j].payment < |l.intents| && l.refunds[j].amount > 0)
    && (forall j :: 0 <= j < |l.outbox| && l.outbox[j].RefundedEvent? ==> l.outbox[j].payment < |l.intents|)
  }

  ghost predicate Consistent(l: Ledger) {
    KeysOnce(l) && forall id :: 0 <= id < |l.intents| ==> IntentOk(l, id)
  }

  lemma {:induction false} NoRowsOfNewIntent(rows: seq<RefundRow>, id: nat)
    requires forall j :: 0 <= j < |rows| ==> rows[j].payment < id
    ensures RowSum(rows, id) == 0
  {
    if rows != [] {
      assert rows[0].payment < id;
      NoRowsOfNewIntent(rows[1..], id);
    }
  }

  lemma {:induction false} NoEventsOfNewIntent(es: seq<Event>, id: nat)
    requires forall j :: 0 <= j < |es| && es[j].RefundedEvent? ==> es[j].payment < id
    ensures EventSum(es, id) == 0
  {
    if es != [] {
      NoEventsOfNewIntent(es[1..], id);
    }
  }

  lemma CreateKeepsConsistent(l: Ledger, o: nat, cents: int)
    requires Consistent(l) && cents > 0
    ensures Consistent(Created(l, o, cents))
  {
    var m := Created(l, o, cents);
    NoRowsOfNewIntent(l.refunds, |l.intents|);
    NoEventsOfNewIntent(l.outbox, |l.intents|);
    forall id | 0 <= id < |m.intents| ensures IntentOk(m, id) {
      if id < |l.intents| {
        assert IntentOk(l, id);
      }
    }
  }

  lemma MoveKeepsConsistent(l: Ledger, id: nat, to: Status)
    requires Consistent(l)
    ensures Consistent(Transitioned(l, id, to))
  {
    var m := Transitioned(l, id, to);
    forall k | 0 <= k < |m.intents| ensures IntentOk(m, k) {
      assert IntentOk(l, k);
      if m != l && EventsFor(id, l.intents[id], to) != [] {
        EventSumPush(l.outbox, EventsFor(id, l.intents[id], to)[0], k);
      } else {
        assert l.outbox + [] == l.outbox;
      }
    }
  }

  lemma RefundKeepsConsistent(l: Ledger, id: nat, cents: int, key: string)
    requires Consistent(l)
    ensures Consistent(RefundApplied(l, id, cents, key))
  {
    if Refunds(l, id, cents, key) {
      var m := RefundApplied(l, id, cents, key);
      var a := Effective(l.intents[id], cents);
      assert IntentOk(l, id);
      forall k | 0 <= k < |m.intents| ensures IntentOk(m, k) {
        assert IntentOk(l, k);
        RowSumPush(l.refunds, RefundRow(id, a, key), k);
        EventSumPush(l.outbox, RefundedEvent(id, a), k);
      }
    }
  }

  lemma StepKeepsConsistent(l: Ledger, op: Op)
    requires Consistent(l)
    ensures Consistent(Step(l, op))
  {
    match op {
      case Create(o, cents) =>
        if cents > 0 {
          CreateKeepsConsistent(l, o, cents);
        }
      case Move(id, to) => MoveKeepsConsistent(l, id, to);
      case Refund(id, cents, key) => RefundKeepsConsistent(l, id, cents, key);
    }
  }

  /**
   The ledger theorem: whatever sequence of creations, transitions and refunds is run, the refunded
   balance of every payment equals its refund rows and its refunded events, stays within the amount,
   reaches it exactly when the payment is REFUNDED, and no key is ever applied twice.
   */
  lemma {:induction false} RunKeepsConsistent(l: Ledger, ops: seq<Op>)
    requires Consistent(l)
    ensures Consistent(Run(l, ops))
    decreases |ops|
  {
    if ops != [] {
      StepKeepsConsistent(l, ops[0]);
      RunKeepsConsistent(Step(l, ops[0]), ops[1..]);
    }
  }

  /** FAILED and VOIDED are final, and no step forgets an intent. */
  lemma StepKeepsFinal(l: Ledger, op: Op, id: nat)
    requires id < |l.intents|
    ensures id < |Step(l, op).intents| && Step(l, op).intents[id].orderRef == l.intents[id].orderRef
    ensures Step(l, op).intents[id].amount == l.intents[id].amount
    ensures l.intents[id].status == Voided || l.intents[id].status == Failed ==>
              Step(l, op).intents[id].status == l.intents[id].status
    ensures l.intents[id].status == Authorized || l.intents[id].status == Status.Refunded ==>
              Step(l, op).intents[id].status !in {RequiresConfirmation, Failed}
    ensures l.intents[id].status == Status.Refunded && Consistent(l) ==> Step(l, op).intents[id].status == Status.Refunded
  {
  }
}
