/**
 The search service's consumer: the loop of Consumer, whose handler writes the index, in the system of Pipeline.

 Here retries, waits, holding and parking are those the loop computes, call by call; the writers and the relay go on
 between two fetches.
 */
module IndexConsumer {
  import opened Base
  import opened Search
  import Consumer
  import Pipeline

  type Pipe = Pipeline.Pipe
  type Loop = Consumer.Loop
  type Event = Consumer.Event
  type DocMap = map<string, Doc>

  /** What the broker holds for a record. */
  function EventAt(part: string -> nat, t: Pipeline.Table, r: Consumer.Record): Option<ProductChanged> {
    var log := Pipeline.PartLog(part, t, r.partition);
    if r.offset < |log| && log[r.offset] < |t.rows| then Some(t.rows[log[r.offset]].payload) else None
  }

  function Written(part: string -> nat, t: Pipeline.Table, docs: DocMap, r: Consumer.Record): DocMap {
    var evt := EventAt(part, t, r);
    if evt == None then docs else Applied(docs, evt.value)
  }

  /**
   The index after what the loop did: a handled record was written, a failed call may have written its own. landed
   says of which calls that is so, counting the loop's events from n.
   */
  function Indexed(part: string -> nat, t: Pipeline.Table, docs: DocMap, es: seq<Event>, landed: nat -> bool, n: nat): DocMap
    decreases |es|
  {
    if es == [] then docs
    else
      var writes := es[0].HandledOk? || (es[0].HandlerFailed? && landed(n));
      Indexed(part, t, if writes then Written(part, t, docs, es[0].r) else docs, es[1..], landed, n + 1)
  }

  function SetAside(es: seq<Event>): set<Consumer.Record> {
    set e | e in es && e.Parked? :: e.r
  }

  // ---- a record ----------------------------------------------------------------------------------

  predicate Fails(es: seq<Event>, r: Consumer.Record) {
    forall k :: 0 <= k < |es| ==> es[k].HandlerFailed? && es[k].r == r
  }

  /** All that can happen to a record: failed calls, and one last event if it is settled. */
  predicate Dispatches(es: seq<Event>, r: Consumer.Record, settled: bool) {
    if settled then
      && es != [] && Fails(es[..|es| - 1], r)
      && (es[|es| - 1] == Consumer.HandledOk(r) || es[|es| - 1] == Consumer.Parked(r))
    else Fails(es, r)
  }

  lemma FailsThen(a: Loop, b: Loop, c: Loop, r: Consumer.Record, settled: bool)
    requires a.events <= b.events <= c.events && Fails(Consumer.Since(a, b), r) && Dispatches(Consumer.Since(b, c), r, settled)
    ensures Dispatches(Consumer.Since(a, c), r, settled)
  {
    assert Consumer.Since(a, c) == Consumer.Since(a, b) + Consumer.Since(b, c);
    if settled {
      var n := |Consumer.Since(b, c)| - 1;
      assert Consumer.Since(a, c)[..|Consumer.Since(a, c)| - 1] == Consumer.Since(a, b) + Consumer.Since(b, c)[..n];
    }
  }

  lemma {:induction false} TriedShape(l: Loop, r: Consumer.Record, left: nat, first: bool, last: Consumer.Verdict)
    requires last.Bad?
    ensures var t := Consumer.Tried(l, r, left, first, last);
            l.events <= t.1.events && Dispatches(Consumer.Since(l, t.1), r, t.0.Fine?)
    decreases left
  {
    if left > 0 && (first || Consumer.Reply(l).ok) {
      var w := if first then l else Consumer.Slept(l);
      var n := Consumer.Called(w, r);
      Consumer.CallAdds(l, first, r);
      Consumer.TriedOnce(l, r, left, first, last);
      if !Consumer.Reply(w).ok && !n.cancelled {
        TriedShape(n, r, left - 1, false, Consumer.VerdictOf(Consumer.Reply(w)));
        var t := Consumer.Tried(n, r, left - 1, false, Consumer.VerdictOf(Consumer.Reply(w)));
        FailsThen(l, n, t.1, r, t.0.Fine?);
      }
    } else {
      Consumer.NoAttempt(l, r, left, first, last);
    }
  }

  lemma ParkingShape(l: Loop, r: Consumer.Record)
    ensures var p := Consumer.Parking(l, r);
            l.events <= p.1.events && Dispatches(Consumer.Since(l, p.1), r, p.0)
  {
    Consumer.ParkingEnds(l, r);
  }

  lemma {:induction false} RetriedShape(l: Loop, dl: Option<Consumer.DeadLetter>, r: Consumer.Record)
    ensures var t := Consumer.Retried(l, dl, r);
            l.events <= t.1.events && Dispatches(Consumer.Since(l, t.1), r, t.0)
    decreases |l.script|
  {
    if Consumer.Reply(l).ok {
      var w := Consumer.Slept(l);
      var v, n := Consumer.VerdictOf(Consumer.Reply(w)), Consumer.Called(w, r);
      assert Consumer.Since(l, n) == [n.events[|l.events|]];
      if v.Bad? && !n.cancelled {
        var t := Consumer.Retried(l, dl, r);
        if Consumer.Holds(dl, v.retryable) {
          RetriedShape(n, dl, r);
        } else {
          ParkingShape(n, r);
        }
        FailsThen(l, n, t.1, r, t.0);
      }
    }
  }

  lemma DispatchShape(l: Loop, dl: Option<Consumer.DeadLetter>, r: Consumer.Record)
    ensures var d := Consumer.Dispatched(l, dl, r);
            l.events <= d.1.events && Dispatches(Consumer.Since(l, d.1), r, d.0)
  {
    var t := Consumer.Tried(l, r, Consumer.Attempts(dl), true, Consumer.Bad(false));
    TriedShape(l, r, Consumer.Attempts(dl), true, Consumer.Bad(false));
    if t.0.Bad? && !t.1.cancelled {
      if Consumer.Holds(dl, t.0.retryable) {
        RetriedShape(t.1, dl, r);
      } else {
        ParkingShape(t.1, r);
      }
      FailsThen(l, t.1, Consumer.Dispatched(l, dl, r).1, r, Consumer.Dispatched(l, dl, r).0);
    }
  }

  // ---- as steps of the pipeline -----------------------------------------------------------------------

  /** What the loop's work did to the system: the index written, records set aside, n records settled. */
  function After(part: string -> nat, s: Pipe, es: seq<Event>, landed: nat -> bool, n: nat, settled: nat): Pipe {
    s.(docs := Indexed(part, s.table, s.docs, es, landed, n), parked := s.parked + SetAside(es),
       session := Consumer.RunActs(s.session, seq(settled, _ => Consumer.Settle)))
  }

  /** b is where some run of the pipeline from a ends. */
  ghost predicate Reaches(part: string -> nat, a: Pipe, b: Pipe) {
    exists steps :: Pipeline.Run(part, a, steps) == b
  }

  lemma StaysPut(part: string -> nat, s: Pipe)
    ensures Reaches(part, s, s)
  {
    assert Pipeline.Run(part, s, []) == s;
  }

  lemma OneStep(part: string -> nat, s: Pipe, step: Pipeline.Step)
    ensures Reaches(part, s, Pipeline.Next(part, s, step))
  {
    assert [step][1..] == [];
    assert Pipeline.Run(part, s, [step]) == Pipeline.Next(part, s, step);
  }

  lemma {:induction false} RunAppend(part: string -> nat, s: Pipe, a: seq<Pipeline.Step>, b: seq<Pipeline.Step>)
    ensures Pipeline.Run(part, s, a + b) == Pipeline.Run(part, Pipeline.Run(part, s, a), b)
    decreases |a|
  {
    if a == [] {
      assert a + b == b;
    } else {
      assert (a + b)[1..] == a[1..] + b;
      RunAppend(part, Pipeline.Next(part, s, a[0]), a[1..], b);
    }
  }

  lemma Onwards(part: string -> nat, a: Pipe, b: Pipe, c: Pipe)
    requires Reaches(part, a, b) && Reaches(part, b, c)
    ensures Reaches(part, a, c)
  {
    var xs :| Pipeline.Run(part, a, xs) == b;
    var ys :| Pipeline.Run(part, b, ys) == c;
    RunAppend(part, a, xs, ys);
  }

  lemma ReachesInv(part: string -> nat, a: Pipe, b: Pipe)
    requires Pipeline.Inv(part, a) && Reaches(part, a, b)
    ensures Pipeline.Inv(part, b)
  {
    var steps :| Pipeline.Run(part, a, steps) == b;
    Pipeline.RunKeeps(part, a, steps);
  }

  lemma {:induction false} IndexedAppend(part: string -> nat, t: Pipeline.Table, docs: DocMap, a: seq<Event>, b: seq<Event>,
                                         landed: nat -> bool, n: nat)
    ensures Indexed(part, t, docs, a + b, landed, n) ==
            Indexed(part, t, Indexed(part, t, docs, a, landed, n), b, landed, n + |a|)
    decreases |a|
  {
    if a == [] {
      assert a + b == b;
    } else {
      assert (a + b)[1..] == a[1..] + b;
      var writes := a[0].HandledOk? || (a[0].HandlerFailed? && landed(n));
      IndexedAppend(part, t, if writes then Written(part, t, docs, a[0].r) else docs, a[1..], b, landed, n + 1);
    }
  }

  /** Work done in two parts is done in one. */
  lemma AfterAppend(part: string -> nat, s: Pipe, a: seq<Event>, b: seq<Event>, landed: nat -> bool, n: nat, i: nat, j: nat)
    ensures After(part, After(part, s, a, landed, n, i), b, landed, n + |a|, j) == After(part, s, a + b, landed, n, i + j)
  {
    IndexedAppend(part, s.table, s.docs, a, b, landed, n);
    assert SetAside(a + b) == SetAside(a) + SetAside(b);
    Consumer.RunActsAppend(s.session, seq(i, _ => Consumer.Settle), seq(j, _ => Consumer.Settle));
    assert seq(i, _ => Consumer.Settle) + seq(j, _ => Consumer.Settle) == seq(i + j, _ => Consumer.Settle);
  }

  lemma OneIndexed(part: string -> nat, t: Pipeline.Table, docs: DocMap, e: Event, landed: nat -> bool, n: nat)
    ensures Indexed(part, t, docs, [e], landed, n) ==
            if e.HandledOk? || (e.HandlerFailed? && landed(n)) then Written(part, t, docs, e.r) else docs
    ensures SetAside([e]) == if e.Parked? then {e.r} else {}
  {
    assert [e][1..] == [];
  }

  lemma HandledIsStep(part: string -> nat, s: Pipe, landed: nat -> bool, n: nat)
    requires s.session.queue != [] && Pipeline.Head(part, s).Some?
    ensures After(part, s, [Consumer.HandledOk(s.session.queue[0])], landed, n, 1) == Pipeline.Next(part, s, Pipeline.Handle)
  {
    OneIndexed(part, s.table, s.docs, Consumer.HandledOk(s.session.queue[0]), landed, n);
    SettleOnce(s.session);
  }

  lemma ParkedIsStep(part: string -> nat, s: Pipe, landed: nat -> bool, n: nat)
    requires s.session.queue != []
    ensures After(part, s, [Consumer.Parked(s.session.queue[0])], landed, n, 1) == Pipeline.Next(part, s, Pipeline.Park)
  {
    OneIndexed(part, s.table, s.docs, Consumer.Parked(s.session.queue[0]), landed, n);
    SettleOnce(s.session);
  }

  lemma FailureIsStep(part: string -> nat, s: Pipe, retryable: bool, landed: nat -> bool, n: nat)
    requires s.session.queue != [] && Pipeline.Head(part, s).Some?
    ensures After(part, s, [Consumer.HandlerFailed(s.session.queue[0], retryable)], landed, n, 0) ==
            if landed(n) then Pipeline.Next(part, s, Pipeline.Apply) else s
  {
    OneIndexed(part, s.table, s.docs, Consumer.HandlerFailed(s.session.queue[0], retryable), landed, n);
    assert Consumer.RunActs(s.session, seq(0, _ => Consumer.Settle)) == s.session;
  }

  /** One event of the head record is one step, or none if a failed call wrote nothing. */
  lemma EventIsStep(part: string -> nat, s: Pipe, e: Event, landed: nat -> bool, n: nat)
    requires s.session.queue != [] && Pipeline.Head(part, s).Some? && e.r == s.session.queue[0]
    ensures Reaches(part, s, After(part, s, [e], landed, n, if e.HandlerFailed? then 0 else 1))
  {
    match e {
      case HandledOk(_) =>
        HandledIsStep(part, s, landed, n);
        OneStep(part, s, Pipeline.Handle);
      case Parked(_) =>
        ParkedIsStep(part, s, landed, n);
        OneStep(part, s, Pipeline.Park);
      case HandlerFailed(_, retryable) =>
        FailureIsStep(part, s, retryable, landed, n);
        OneStep(part, s, Pipeline.Apply);
        StaysPut(part, s);
    }
  }

  /** Whatever is polled is in the log. */
  lemma HeadKnown(part: string -> nat, a: Pipe, s: Pipe)
    requires Pipeline.Inv(part, a) && Reaches(part, a, s) && s.session.queue != []
    ensures Pipeline.Head(part, s).Some?
  {
    ReachesInv(part, a, s);
    Pipeline.HeadIs(part, s);
  }

  lemma SettleOnce(s: Consumer.Session)
    ensures Consumer.RunActs(s, seq(1, _ => Consumer.Settle)) == Consumer.Next(s, Consumer.Settle)
  {
    assert seq(1, _ => Consumer.Settle)[1..] == [];
  }

  lemma {:induction false} FailsAreSteps(part: string -> nat, s: Pipe, es: seq<Event>, landed: nat -> bool, n: nat)
    requires Pipeline.Inv(part, s) && s.session.queue != [] && Fails(es, s.session.queue[0])
    ensures Reaches(part, s, After(part, s, es, landed, n, 0))
    ensures After(part, s, es, landed, n, 0).session == s.session
    decreases |es|
  {
    assert Consumer.RunActs(s.session, seq(0, _ => Consumer.Settle)) == s.session;
    if es == [] {
      assert SetAside(es) == {};
      assert After(part, s, es, landed, n, 0) == s;
      StaysPut(part, s);
    } else {
      var k := |es| - 1;
      var mid := After(part, s, es[..k], landed, n, 0);
      FailsAreSteps(part, s, es[..k], landed, n);
      HeadKnown(part, s, mid);
      EventIsStep(part, mid, es[k], landed, n + k);
      AfterAppend(part, s, es[..k], [es[k]], landed, n, 0, 0);
      assert es[..k] + [es[k]] == es;
      Onwards(part, s, mid, After(part, s, es, landed, n, 0));
    }
  }

  lemma RecordIsSteps(part: string -> nat, s: Pipe, es: seq<Event>, settled: bool, landed: nat -> bool, n: nat)
    requires Pipeline.Inv(part, s) && s.session.queue != [] && Dispatches(es, s.session.queue[0], settled)
    ensures Reaches(part, s, After(part, s, es, landed, n, if settled then 1 else 0))
  {
    if settled {
      var k := |es| - 1;
      var mid := After(part, s, es[..k], landed, n, 0);
      FailsAreSteps(part, s, es[..k], landed, n);
      HeadKnown(part, s, mid);
      EventIsStep(part, mid, es[k], landed, n + k);
      AfterAppend(part, s, es[..k], [es[k]], landed, n, 0, 1);
      assert es[..k] + [es[k]] == es;
      Onwards(part, s, mid, After(part, s, es, landed, n, 1));
    } else {
      FailsAreSteps(part, s, es, landed, n);
    }
  }

  // ---- a fetch ---------------------------------------------------------------------------------------------

  /** Where the loop is after settling so many records, and that a run of the pipeline gets there. */
  ghost predicate IsRun(part: string -> nat, s: Pipe, l: Loop, settled: nat, end: Loop, landed: nat -> bool) {
    l.events <= end.events && Reaches(part, s, After(part, s, Consumer.Since(l, end), landed, |l.events|, settled))
  }

  /** Dispatching the head record is a run of the pipeline, after which the next one is at the head. */
  lemma HeadIsRun(part: string -> nat, s: Pipe, l: Loop, dl: Option<Consumer.DeadLetter>, landed: nat -> bool)
    requires Pipeline.Inv(part, s) && s.session.queue != []
    ensures var d := Consumer.Dispatched(l, dl, s.session.queue[0]);
            && IsRun(part, s, l, if d.0 then 1 else 0, d.1, landed)
            && var mid := After(part, s, Consumer.Since(l, d.1), landed, |l.events|, if d.0 then 1 else 0);
               Pipeline.Inv(part, mid) && (d.0 ==> mid.session.queue == s.session.queue[1..])
  {
    var d := Consumer.Dispatched(l, dl, s.session.queue[0]);
    DispatchShape(l, dl, s.session.queue[0]);
    RecordIsSteps(part, s, Consumer.Since(l, d.1), d.0, landed, |l.events|);
    ReachesInv(part, s, After(part, s, Consumer.Since(l, d.1), landed, |l.events|, if d.0 then 1 else 0));
    SettleOnce(s.session);
  }

  lemma EmptyBatchIsRun(part: string -> nat, s: Pipe, l: Loop, landed: nat -> bool)
    ensures IsRun(part, s, l, 0, l, landed)
  {
    var n := |l.events|;
    assert Consumer.Since(l, l) == [];
    assert SetAside([]) == {};
    assert Consumer.RunActs(s.session, seq(0, _ => Consumer.Settle)) == s.session;
    assert After(part, s, [], landed, n, 0) == s;
    StaysPut(part, s);
  }

  /** The head record's work and that of the rest make up the batch's. */
  lemma HeadAndRest(part: string -> nat, s: Pipe, a: Loop, b: Loop, c: Loop, landed: nat -> bool, rest: nat)
    requires a.events <= b.events <= c.events
    requires var mid := After(part, s, Consumer.Since(a, b), landed, |a.events|, 1);
             Reaches(part, s, mid) && Reaches(part, mid, After(part, mid, Consumer.Since(b, c), landed, |b.events|, rest))
    ensures Reaches(part, s, After(part, s, Consumer.Since(a, c), landed, |a.events|, 1 + rest))
  {
    var mid := After(part, s, Consumer.Since(a, b), landed, |a.events|, 1);
    AfterAppend(part, s, Consumer.Since(a, b), Consumer.Since(b, c), landed, |a.events|, 1, rest);
    assert Consumer.Since(a, b) + Consumer.Since(b, c) == Consumer.Since(a, c);
    Onwards(part, s, mid, After(part, mid, Consumer.Since(b, c), landed, |b.events|, rest));
  }

  lemma BatchUnfolds(l: Loop, dl: Option<Consumer.DeadLetter>, queue: seq<Consumer.Record>)
    requires queue != []
    ensures var d := Consumer.Dispatched(l, dl, queue[0]);
            Consumer.Batch(l, dl, queue) ==
            if d.0 then (1 + Consumer.Batch(d.1, dl, queue[1..]).0, Consumer.Batch(d.1, dl, queue[1..]).1) else (0, d.1)
  {
  }

  lemma RestIsRun(part: string -> nat, s: Pipe, l: Loop, d: Loop, rest: (nat, Loop), landed: nat -> bool)
    requires IsRun(part, s, l, 1, d, landed)
    requires IsRun(part, After(part, s, Consumer.Since(l, d), landed, |l.events|, 1), d, rest.0, rest.1, landed)
    ensures IsRun(part, s, l, 1 + rest.0, rest.1, landed)
  {
    HeadAndRest(part, s, l, d, rest.1, landed, rest.0);
  }

  /** Dispatching the queue in order is a run of the pipeline. */
  lemma {:induction false} BatchIsRun(part: string -> nat, s: Pipe, queue: seq<Consumer.Record>, l: Loop,
                                      dl: Option<Consumer.DeadLetter>, landed: nat -> bool)
    requires Pipeline.Inv(part, s) && s.session.queue == queue
    ensures IsRun(part, s, l, Consumer.Batch(l, dl, queue).0, Consumer.Batch(l, dl, queue).1, landed)
    decreases |queue|
  {
    if queue == [] {
      EmptyBatchIsRun(part, s, l, landed);
    } else {
      var d := Consumer.Dispatched(l, dl, queue[0]);
      HeadIsRun(part, s, l, dl, landed);
      BatchUnfolds(l, dl, queue);
      if d.0 {
        BatchIsRun(part, After(part, s, Consumer.Since(l, d.1), landed, |l.events|, 1), queue[1..], d.1, dl, landed);
        RestIsRun(part, s, l, d.1, Consumer.Batch(d.1, dl, queue[1..]), landed);
      }
    }
  }

  /** One fetch of the loop, and what its handler calls did to the index. */
  function AfterFetch(part: string -> nat, s: Pipe, l: Loop, dl: Option<Consumer.DeadLetter>, takes: seq<Consumer.Take>,
                      landed: nat -> bool): (Pipe, Loop)
  {
    var p := Consumer.OneFetch(Consumer.Process(l, s.session), dl, takes);
    var es := if l.events <= p.loop.events then Consumer.Since(l, p.loop) else [];
    (s.(docs := Indexed(part, s.table, s.docs, es, landed, |l.events|), parked := s.parked + SetAside(es), session := p.session),
     p.loop)
  }

  lemma CommitIsStep(part: string -> nat, s: Pipe)
    ensures Reaches(part, s, s.(session := Consumer.Next(s.session, Consumer.Commit)))
  {
    OneStep(part, s, Pipeline.Commit);
  }

  /** What a fetch leaves is the poll, then the batch's work, then the commit if the batch was settled and it lands. */
  lemma FetchInParts(part: string -> nat, s: Pipe, l: Loop, dl: Option<Consumer.DeadLetter>, takes: seq<Consumer.Take>,
                     landed: nat -> bool)
    requires var b := Consumer.Batch(l, dl, Consumer.Next(s.session, Consumer.Poll(takes)).queue); l.events <= b.1.events
    ensures var polled := s.(session := Consumer.Next(s.session, Consumer.Poll(takes)));
            var b := Consumer.Batch(l, dl, polled.session.queue);
            var done := After(part, polled, Consumer.Since(l, b.1), landed, |l.events|, b.0);
            AfterFetch(part, s, l, dl, takes, landed).0 ==
            if b.0 >= |polled.session.queue| && Consumer.Reply(b.1).ok then
              done.(session := Consumer.Next(done.session, Consumer.Commit))
            else done
  {
  }

  /** A fetch of the loop is a run of the pipeline. */
  lemma FetchIsRun(part: string -> nat, s: Pipe, l: Loop, dl: Option<Consumer.DeadLetter>, takes: seq<Consumer.Take>,
                   landed: nat -> bool)
    requires Pipeline.Inv(part, s) && Pipeline.Available(part, s, takes)
    ensures Reaches(part, s, AfterFetch(part, s, l, dl, takes, landed).0)
  {
    var polled := s.(session := Consumer.Next(s.session, Consumer.Poll(takes)));
    OneStep(part, s, Pipeline.Poll(takes));
    ReachesInv(part, s, polled);
    BatchIsRun(part, polled, polled.session.queue, l, dl, landed);
    FetchInParts(part, s, l, dl, takes, landed);
    var b := Consumer.Batch(l, dl, polled.session.queue);
    var done := After(part, polled, Consumer.Since(l, b.1), landed, |l.events|, b.0);
    Onwards(part, s, polled, done);
    CommitIsStep(part, done);
    PolledThenCommitted(part, s, done, AfterFetch(part, s, l, dl, takes, landed).0);
  }

  lemma PolledThenCommitted(part: string -> nat, s: Pipe, done: Pipe, end: Pipe)
    requires Reaches(part, s, done)
    requires end == done || (end == done.(session := Consumer.Next(done.session, Consumer.Commit)) && Reaches(part, done, end))
    ensures Reaches(part, s, end)
  {
    if end != done {
      Onwards(part, s, done, end);
    }
  }

  // ---- lifetimes ---------------------------------------------------------------------------------------------

  /** What the writers and the relay do before the next fetch. */
  datatype Round = Round(before: seq<Pipeline.Step>, fetch: Consumer.Fetch)

  function Producing(steps: seq<Pipeline.Step>): seq<Pipeline.Step> {
    if steps == [] then []
    else (if steps[0].Change? || steps[0].End? || steps[0].Relay? then [steps[0]] else []) + Producing(steps[1..])
  }

  /** The loop polls until its context ends, with the writers and the relay going on; a fetch finds only what is there. */
  ghost function Live(part: string -> nat, s: Pipe, l: Loop, dl: Option<Consumer.DeadLetter>, rounds: seq<Round>,
                      landed: nat -> bool): (r: (Pipe, Loop))
    decreases |rounds|
  {
    if l.cancelled || rounds == [] then (s, l)
    else
      var t := Pipeline.Run(part, s, Producing(rounds[0].before));
      if rounds[0].fetch.Failed? || !Pipeline.Available(part, t, rounds[0].fetch.takes) then
        Live(part, t, l, dl, rounds[1..], landed)
      else
        var n := AfterFetch(part, t, l, dl, rounds[0].fetch.takes, landed);
        Live(part, n.0, n.1, dl, rounds[1..], landed)
  }

  /** A process lifetime of the consumer is a run of the pipeline. */
  lemma {:induction false} LifetimeIsRun(part: string -> nat, s: Pipe, l: Loop, dl: Option<Consumer.DeadLetter>,
                                         rounds: seq<Round>, landed: nat -> bool)
    requires Pipeline.Inv(part, s)
    ensures Reaches(part, s, Live(part, s, l, dl, rounds, landed).0)
    decreases |rounds|
  {
    if l.cancelled || rounds == [] {
      StaysPut(part, s);
    } else {
      var end := Live(part, s, l, dl, rounds, landed).0;
      var t := Pipeline.Run(part, s, Producing(rounds[0].before));
      ReachesInv(part, s, t);
      if rounds[0].fetch.Failed? || !Pipeline.Available(part, t, rounds[0].fetch.takes) {
        LifetimeIsRun(part, t, l, dl, rounds[1..], landed);
      } else {
        var n := AfterFetch(part, t, l, dl, rounds[0].fetch.takes, landed);
        FetchIsRun(part, t, l, dl, rounds[0].fetch.takes, landed);
        ReachesInv(part, t, n.0);
        LifetimeIsRun(part, n.0, n.1, dl, rounds[1..], landed);
        Onwards(part, t, n.0, end);
      }
      Onwards(part, s, t, end);
    }
  }

  /** The fetches the loop gets in its rounds; one that would find more than there is fails. */
  ghost function Fetches(part: string -> nat, s: Pipe, l: Loop, dl: Option<Consumer.DeadLetter>, rounds: seq<Round>,
                         landed: nat -> bool): seq<Consumer.Fetch>
    decreases |rounds|
  {
    if l.cancelled || rounds == [] then []
    else
      var t := Pipeline.Run(part, s, Producing(rounds[0].before));
      if rounds[0].fetch.Failed? || !Pipeline.Available(part, t, rounds[0].fetch.takes) then
        [Consumer.Fetch.Failed] + Fetches(part, t, l, dl, rounds[1..], landed)
      else
        var n := AfterFetch(part, t, l, dl, rounds[0].fetch.takes, landed);
        [rounds[0].fetch] + Fetches(part, n.0, n.1, dl, rounds[1..], landed)
  }

  lemma {:induction false} ProducingKeepsSession(part: string -> nat, s: Pipe, steps: seq<Pipeline.Step>)
    ensures Pipeline.Run(part, s, Producing(steps)).session == s.session
    decreases |steps|
  {
    if steps != [] {
      if steps[0].Change? || steps[0].End? || steps[0].Relay? {
        assert Producing(steps)[1..] == Producing(steps[1..]);
        ProducingKeepsSession(part, Pipeline.Next(part, s, steps[0]), steps[1..]);
      } else {
        assert Producing(steps) == Producing(steps[1..]);
        ProducingKeepsSession(part, s, steps[1..]);
      }
    }
  }

  /** To the loop such a lifetime is one of its own: what ConsumerLoop.Run leaves after the same answers and fetches. */
  lemma {:induction false} LiveIsPolled(part: string -> nat, s: Pipe, l: Loop, dl: Option<Consumer.DeadLetter>,
                                        rounds: seq<Round>, landed: nat -> bool)
    ensures var q := Consumer.Polled(Consumer.Process(l, s.session), dl, Fetches(part, s, l, dl, rounds, landed));
            var r := Live(part, s, l, dl, rounds, landed);
            r.0.session == q.session && r.1.events == q.loop.events
    decreases |rounds|
  {
    if !l.cancelled && rounds != [] {
      var t := Pipeline.Run(part, s, Producing(rounds[0].before));
      ProducingKeepsSession(part, s, rounds[0].before);
      var fetches := Fetches(part, s, l, dl, rounds, landed);
      if rounds[0].fetch.Failed? || !Pipeline.Available(part, t, rounds[0].fetch.takes) {
        assert fetches[1..] == Fetches(part, t, l, dl, rounds[1..], landed);
        LiveIsPolled(part, t, l, dl, rounds[1..], landed);
      } else {
        var n := AfterFetch(part, t, l, dl, rounds[0].fetch.takes, landed);
        assert fetches[1..] == Fetches(part, n.0, n.1, dl, rounds[1..], landed);
        LiveIsPolled(part, n.0, n.1, dl, rounds[1..], landed);
      }
    }
  }

  /** A process: the answers it gets, its rounds, and which of its failed calls wrote the index. */
  datatype Life = Life(script: seq<Consumer.Answer>, rounds: seq<Round>, landed: nat -> bool)

  /** Processes one after the other, each from the offsets committed so far. */
  ghost function Lives(part: string -> nat, s: Pipe, dl: Option<Consumer.DeadLetter>, lives: seq<Life>): Pipe
    decreases |lives|
  {
    if lives == [] then s
    else
      var restarted := Pipeline.Next(part, s, Pipeline.Restart);
      Lives(part, Live(part, restarted, Consumer.Loop(lives[0].script, false, []), dl, lives[0].rounds, lives[0].landed).0, dl, lives[1..])
  }

  lemma {:induction false} LivesAreRun(part: string -> nat, s: Pipe, dl: Option<Consumer.DeadLetter>, lives: seq<Life>)
    requires Pipeline.Inv(part, s)
    ensures Reaches(part, s, Lives(part, s, dl, lives))
    decreases |lives|
  {
    if lives == [] {
      StaysPut(part, s);
    } else {
      var end := Lives(part, s, dl, lives);
      var restarted := Pipeline.Next(part, s, Pipeline.Restart);
      OneStep(part, s, Pipeline.Restart);
      ReachesInv(part, s, restarted);
      var l := Consumer.Loop(lives[0].script, false, []);
      var after := Live(part, restarted, l, dl, lives[0].rounds, lives[0].landed).0;
      LifetimeIsRun(part, restarted, l, dl, lives[0].rounds, lives[0].landed);
      ReachesInv(part, restarted, after);
      LivesAreRun(part, after, dl, lives[1..]);
      Onwards(part, restarted, after, end);
      Onwards(part, s, restarted, end);
    }
  }

  /**
   The index converges under the loop itself: over any process lifetimes, whatever its calls are answered, once every
   outbox row is marked, the consumer has caught up and nothing was parked, the index holds exactly the active
   products, each at its latest snapshot.
   */
  lemma LoopConverges(part: string -> nat, dl: Option<Consumer.DeadLetter>, lives: seq<Life>)
    requires var s := Lives(part, Pipeline.START, dl, lives); Pipeline.CaughtUp(part, s) && s.parked == {}
    ensures var s := Lives(part, Pipeline.START, dl, lives); s.docs == Wanted(s.products)
  {
    Pipeline.StartOk(part);
    LivesAreRun(part, Pipeline.START, dl, lives);
    var steps :| Pipeline.Run(part, Pipeline.START, steps) == Lives(part, Pipeline.START, dl, lives);
    Pipeline.IndexConverges(part, steps);
  }
}
