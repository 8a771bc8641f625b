/**
 The consumer-group loop: bounded retry, holding, parking, and when offsets move.

 The environment is a script: each handler call, wait, dead-letter publish or commit takes its next
 answer, and when the script runs out the context is cancelled. Every finite run has such a script.
 */
module Consumer {
  import opened Base

  datatype Record = Record(partition: nat, offset: nat)

  /** Offsets by partition; a partition not mentioned is at 0. */
  type Offsets = map<nat, nat>

  function At(m: Offsets, p: nat): nat {
    if p in m then m[p] else 0
  }

  /** A fetch takes some number of next records from each of some partitions. */
  datatype Take = Take(partition: nat, count: nat)

  function RunOf(p: nat, from: nat, count: nat): seq<Record> {
    seq(count, i requires 0 <= i < count => Record(p, from + i))
  }

  function Expand(pos: Offsets, takes: seq<Take>): seq<Record>
    decreases |takes|
  {
    if takes == [] then []
    else
      var t := takes[0];
      RunOf(t.partition, At(pos, t.partition), t.count) + Expand(pos[t.partition := At(pos, t.partition) + t.count], takes[1..])
  }

  function Advance(pos: Offsets, takes: seq<Take>): Offsets
    decreases |takes|
  {
    if takes == [] then pos
    else Advance(pos[takes[0].partition := At(pos, takes[0].partition) + takes[0].count], takes[1..])
  }

  // ---- the protocol over restarts --------------------------------------------------

  /**
   pos: the client's poll position. queue: records fetched and not yet settled. done: the first offset of
   each partition not settled in this process. settled: every record ever handled without error or parked.
   */
  datatype Session = Session(pos: Offsets, done: Offsets, committed: Offsets, queue: seq<Record>, settled: set<Record>)

  datatype Act = Poll(takes: seq<Take>) | Settle | Commit | Restart

  function Next(s: Session, a: Act): Session {
    match a
    case Poll(takes) =>
      if s.queue != [] then s else s.(pos := Advance(s.pos, takes), queue := Expand(s.pos, takes))
    case Settle =>
      if s.queue == [] then s
      else
        var r := s.queue[0];
        s.(queue := s.queue[1..], settled := s.settled + {r}, done := s.done[r.partition := r.offset + 1])
    case Commit => if s.queue != [] then s else s.(committed := s.pos)
    case Restart => s.(pos := s.committed, done := s.committed, queue := [])
  }

  function RunActs(s: Session, acts: seq<Act>): Session
    decreases |acts|
  {
    if acts == [] then s else RunActs(Next(s, acts[0]), acts[1..])
  }

  lemma {:induction false} RunActsAppend(s: Session, a: seq<Act>, b: seq<Act>)
    ensures RunActs(s, a + b) == RunActs(RunActs(s, a), b)
    decreases |a|
  {
    if a == [] {
      assert a + b == b;
    } else {
      assert (a + b)[1..] == a[1..] + b;
      RunActsAppend(Next(s, a[0]), a[1..], b);
    }
  }

  lemma RunActsOne(s: Session, acts: seq<Act>, a: Act)
    ensures RunActs(s, acts + [a]) == Next(RunActs(s, acts), a)
  {
    RunActsAppend(s, acts, [a]);
    assert [a][1..] == [];
  }

  /** The queue is exactly what lies between done and pos, in offset order within each partition. */
  ghost predicate QueueOk(queue: seq<Record>, done: Offsets, pos: Offsets)
    decreases |queue|
  {
    if queue == [] then forall p :: At(done, p) == At(pos, p)
    else
      && queue[0].offset == At(done, queue[0].partition)
      && QueueOk(queue[1..], done[queue[0].partition := queue[0].offset + 1], pos)
  }

  /** What is queued lies below the poll position. */
  lemma {:induction false} DoneWithinPos(queue: seq<Record>, done: Offsets, pos: Offsets, p: nat)
    requires QueueOk(queue, done, pos)
    ensures At(done, p) <= At(pos, p)
    ensures queue != [] ==> queue[0].offset < At(pos, queue[0].partition)
    decreases |queue|
  {
    if queue != [] {
      var r := queue[0];
      DoneWithinPos(queue[1..], done[r.partition := r.offset + 1], pos, r.partition);
      DoneWithinPos(queue[1..], done[r.partition := r.offset + 1], pos, p);
    }
  }

  ghost predicate SessionOk(s: Session) {
    && QueueOk(s.queue, s.done, s.pos)
    && (forall p, o :: 0 <= o < At(s.done, p) ==> Record(p, o) in s.settled)
    && (forall p :: At(s.committed, p) <= At(s.done, p))
  }

  lemma {:induction false} RunQueued(p: nat, from: nat, count: nat, rest: seq<Record>, done: Offsets, pos: Offsets)
    requires At(done, p) == from && QueueOk(rest, done[p := from + count], pos)
    ensures QueueOk(RunOf(p, from, count) + rest, done, pos)
    decreases count
  {
    if count == 0 {
      assert RunOf(p, from, 0) + rest == rest;
      QueueOkSame(rest, done[p := from], done, pos);
    } else {
      var queue := RunOf(p, from, count) + rest;
      assert queue[1..] == RunOf(p, from + 1, count - 1) + rest;
      assert done[p := from + 1][p := from + count] == done[p := from + count];
      RunQueued(p, from + 1, count - 1, rest, done[p := from + 1], pos);
    }
  }

  /** Only the offsets count, not how they are written down. */
  lemma {:induction false} QueueOkSame(queue: seq<Record>, a: Offsets, b: Offsets, pos: Offsets)
    requires QueueOk(queue, a, pos) && forall p :: At(a, p) == At(b, p)
    ensures QueueOk(queue, b, pos)
    decreases |queue|
  {
    if queue != [] {
      var r := queue[0];
      var a', b' := a[r.partition := r.offset + 1], b[r.partition := r.offset + 1];
      forall p ensures At(a', p) == At(b', p) {
        assert At(a, p) == At(b, p);
      }
      QueueOkSame(queue[1..], a', b', pos);
    }
  }

  lemma {:induction false} ExpandQueued(pos: Offsets, takes: seq<Take>)
    ensures QueueOk(Expand(pos, takes), pos, Advance(pos, takes))
    decreases |takes|
  {
    if takes != [] {
      var t := takes[0];
      var from := At(pos, t.partition);
      var after := pos[t.partition := from + t.count];
      ExpandQueued(after, takes[1..]);
      RunQueued(t.partition, from, t.count, Expand(after, takes[1..]), pos, Advance(pos, takes));
    }
  }

  lemma NextKeepsQueue(s: Session, a: Act)
    requires QueueOk(s.queue, s.done, s.pos)
    ensures QueueOk(Next(s, a).queue, Next(s, a).done, Next(s, a).pos)
  {
    match a {
      case Poll(takes) =>
        if s.queue == [] {
          ExpandQueued(s.pos, takes);
          QueueOkSame(Expand(s.pos, takes), s.pos, s.done, Advance(s.pos, takes));
        }
      case Settle =>
      case Commit =>
      case Restart =>
    }
  }

  lemma NextKeepsOk(s: Session, a: Act)
    requires SessionOk(s)
    ensures SessionOk(Next(s, a))
  {
    NextKeepsQueue(s, a);
  }

  /**
   Across any number of restarts, every record below a committed offset was handled without error or parked.
   */
  lemma {:induction false} CommittedWereSettled(s: Session, acts: seq<Act>)
    requires SessionOk(s)
    ensures SessionOk(RunActs(s, acts))
    ensures forall p, o :: 0 <= o < At(RunActs(s, acts).committed, p) ==> Record(p, o) in RunActs(s, acts).settled
    decreases |acts|
  {
    if acts != [] {
      NextKeepsOk(s, acts[0]);
      CommittedWereSettled(Next(s, acts[0]), acts[1..]);
    }
  }

  function SettledBy(s: Session, a: Act): seq<Record> {
    if a.Settle? && s.queue != [] then [s.queue[0]] else []
  }

  /** The records a run settles, in the order it settles them. */
  function SettledIn(s: Session, acts: seq<Act>): seq<Record>
    decreases |acts|
  {
    if acts == [] then [] else SettledBy(s, acts[0]) + SettledIn(Next(s, acts[0]), acts[1..])
  }

  function OnPartition(records: seq<Record>, p: nat): seq<Record> {
    if records == [] then []
    else (if records[0].partition == p then [records[0]] else []) + OnPartition(records[1..], p)
  }

  lemma OnPartitionFirst(r: Record, rest: seq<Record>, p: nat)
    ensures OnPartition([r] + rest, p) == (if r.partition == p then [r] else []) + OnPartition(rest, p)
  {
    assert ([r] + rest)[1..] == rest;
  }

  /** Settling takes the partition's next record, and nothing else moves it. */
  lemma StepSettlesNext(s: Session, a: Act, p: nat)
    requires QueueOk(s.queue, s.done, s.pos) && a != Restart
    ensures At(Next(s, a).done, p) == At(s.done, p) + (if SettledBy(s, a) != [] && SettledBy(s, a)[0].partition == p then 1 else 0)
    ensures SettledBy(s, a) != [] && SettledBy(s, a)[0].partition == p ==> SettledBy(s, a)[0] == Record(p, At(s.done, p))
  {
    if a.Settle? && s.queue != [] {
      assert s.queue[0].offset == At(s.done, s.queue[0].partition);
    }
  }

  /** A settled record and the stretch after it are one stretch. */
  lemma SettledJoin(a: seq<Record>, b: seq<Record>, p: nat, from: nat, mid: nat, to: nat)
    requires |a| <= 1 && mid <= to
    requires if a != [] && a[0].partition == p then a[0] == Record(p, from) && mid == from + 1 else mid == from
    requires OnPartition(b, p) == RunOf(p, mid, to - mid)
    ensures OnPartition(a + b, p) == RunOf(p, from, to - from)
  {
    if a == [] {
      assert a + b == b;
    } else {
      OnPartitionFirst(a[0], b, p);
      assert a == [a[0]];
      if a[0].partition == p {
        assert [Record(p, from)] + RunOf(p, from + 1, to - mid) == RunOf(p, from, to - from);
      } else {
        assert [] + OnPartition(b, p) == OnPartition(b, p);
      }
    }
  }

  /**
   Within one process lifetime a partition's records are settled strictly in offset order, with none skipped
   and none settled twice.
   */
  lemma {:induction false} SettledInOrder(s: Session, acts: seq<Act>, p: nat)
    requires QueueOk(s.queue, s.done, s.pos) && Restart !in acts
    ensures At(s.done, p) <= At(RunActs(s, acts).done, p)
    ensures OnPartition(SettledIn(s, acts), p) == RunOf(p, At(s.done, p), At(RunActs(s, acts).done, p) - At(s.done, p))
    decreases |acts|
  {
    if acts != [] {
      assert acts[0] in acts;
      var n := Next(s, acts[0]);
      NextKeepsQueue(s, acts[0]);
      StepSettlesNext(s, acts[0], p);
      SettledInOrder(n, acts[1..], p);
      SettledJoin(SettledBy(s, acts[0]), SettledIn(n, acts[1..]), p, At(s.done, p), At(n.done, p), At(RunActs(s, acts).done, p));
    }
  }

  lemma FreshSession()
    ensures SessionOk(Session(map[], map[], map[], [], {}))
  {
  }

  // ---- what the loop computes ------------------------------------------------------------

  /** The environment's reply to a call, and whether the context is cancelled by the time it comes. */
  datatype Answer = Answer(ok: bool, retryable: bool, cancel: bool)

  datatype Fetch = Failed | Fetched(takes: seq<Take>)

  datatype Event = HandledOk(r: Record) | HandlerFailed(r: Record, retryable: bool) | Parked(r: Record)

  datatype DeadLetter = DeadLetter(attempts: nat, knowsRetryable: bool)

  datatype Verdict = Fine | Bad(retryable: bool)

  /** The answers still to come, whether the context has ended, and what happened so far. */
  datatype Loop = Loop(script: seq<Answer>, cancelled: bool, events: seq<Event>)

  function Reply(l: Loop): Answer {
    if l.script == [] then Answer(false, false, true) else l.script[0]
  }

  function Asked(l: Loop): Loop {
    Loop(if l.script == [] then [] else l.script[1..], l.cancelled || Reply(l).cancel, l.events)
  }

  /** A wait is cut short only by the end of the context. */
  function Slept(l: Loop): Loop {
    if Reply(l).ok then Asked(l) else Asked(l).(cancelled := true)
  }

  function VerdictOf(a: Answer): Verdict {
    if a.ok then Fine else Bad(a.retryable)
  }

  function Called(l: Loop, r: Record): Loop {
    Asked(l).(events := l.events + [if Reply(l).ok then HandledOk(r) else HandlerFailed(r, Reply(l).retryable)])
  }

  /** Without a dead-letter topic every failure is held; with one, only those it calls retryable. */
  predicate Holds(dl: Option<DeadLetter>, retryable: bool) {
    dl == None || (dl.value.knowsRetryable && retryable)
  }

  function Attempts(dl: Option<DeadLetter>): nat {
    if dl.Some? then dl.value.attempts else 1
  }

  /** Up to left more handler calls, a wait before each but the very first. */
  function Tried(l: Loop, r: Record, left: nat, first: bool, last: Verdict): (Verdict, Loop)
    decreases left
  {
    if left == 0 then (last, l)
    else if !first && !Reply(l).ok then (last, Slept(l))
    else
      var w := if first then l else Slept(l);
      var v, n := VerdictOf(Reply(w)), Called(w, r);
      if v.Fine? || n.cancelled then (v, n) else Tried(n, r, left - 1, false, v)
  }

  function Parking(l: Loop, r: Record): (bool, Loop)
    decreases |l.script|
  {
    var n := Asked(l);
    if Reply(l).ok then (true, n.(events := n.events + [Parked(r)]))
    else if !Reply(n).ok then (false, Slept(n))
    else Parking(Slept(n), r)
  }

  function Retried(l: Loop, dl: Option<DeadLetter>, r: Record): (bool, Loop)
    decreases |l.script|
  {
    if !Reply(l).ok then (false, Slept(l))
    else
      var w := Slept(l);
      var v, n := VerdictOf(Reply(w)), Called(w, r);
      if v.Fine? then (true, n)
      else if n.cancelled then (false, n)
      else if !Holds(dl, v.retryable) then Parking(n, r)
      else Retried(n, dl, r)
  }

  function Dispatched(l: Loop, dl: Option<DeadLetter>, r: Record): (bool, Loop) {
    var t := Tried(l, r, Attempts(dl), true, Bad(false));
    if t.0.Fine? then (true, t.1)
    else if t.1.cancelled then (false, t.1)
    else if Holds(dl, t.0.retryable) then Retried(t.1, dl, r)
    else Parking(t.1, r)
  }

  /** Dispatches in order up to the first record given up on; counts those settled. */
  function Batch(l: Loop, dl: Option<DeadLetter>, records: seq<Record>): (b: (nat, Loop))
    ensures b.0 <= |records|
    decreases |records|
  {
    if records == [] then (0, l)
    else
      var d := Dispatched(l, dl, records[0]);
      if !d.0 then (0, d.1)
      else
        var rest := Batch(d.1, dl, records[1..]);
        (1 + rest.0, rest.1)
  }

  datatype Process = Process(loop: Loop, session: Session)

  /** One fetch with records: dispatched in order, and committed only if it was settled to its end. */
  function OneFetch(p: Process, dl: Option<DeadLetter>, takes: seq<Take>): Process {
    var polled := Next(p.session, Poll(takes));
    var b := Batch(p.loop, dl, polled.queue);
    var settled := RunActs(polled, seq(b.0, _ => Settle));
    if b.0 < |polled.queue| then Process(b.1, settled)
    else Process(Asked(b.1), if Reply(b.1).ok then Next(settled, Commit) else settled)
  }

  /** Polls until the context ends; it ends at the latest when there is nothing more to poll. */
  function Polled(p: Process, dl: Option<DeadLetter>, polls: seq<Fetch>): Process
    decreases |polls|
  {
    if p.loop.cancelled then p
    else if polls == [] then p.(loop := p.loop.(cancelled := true))
    else Polled(if polls[0].Failed? then p else OneFetch(p, dl, polls[0].takes), dl, polls[1..])
  }

  // ---- what a dispatch decides --------------------------------------------------------------

  /** Everything that happened from a to b concerns r, and b is no nearer to running than a. */
  ghost predicate Onward(a: Loop, b: Loop, r: Record) {
    && a.events <= b.events && (forall k :: |a.events| <= k < |b.events| ==> b.events[k].r == r)
    && (a.cancelled ==> b.cancelled)
  }

  /** Handled without error, or parked right after a failure that was not to be held. */
  ghost predicate Decided(a: Loop, b: Loop, r: Record, dl: Option<DeadLetter>) {
    var n := |b.events|;
    && n > |a.events|
    && (b.events[n - 1] == HandledOk(r)
        || (&& b.events[n - 1] == Parked(r) && dl.Some? && n >= |a.events| + 2
            && b.events[n - 2].HandlerFailed? && !Holds(dl, b.events[n - 2].retryable)))
  }

  lemma CallIsOnward(l: Loop, first: bool, r: Record)
    ensures var w := if first then l else Slept(l);
            && Onward(l, Called(w, r), r) && Called(w, r).events == l.events + [Called(w, r).events[|l.events|]]
            && Called(w, r).events[|l.events|] == (if Reply(w).ok then HandledOk(r) else HandlerFailed(r, Reply(w).retryable))
  {
  }

  /** What a series of attempts on r can look like. */
  ghost predicate Series(a: Loop, v: Verdict, b: Loop, r: Record, left: nat) {
    && Onward(a, b, r) && |b.events| <= |a.events| + left
    && (v.Fine? ==> |b.events| > |a.events| && b.events[|b.events| - 1] == HandledOk(r))
    && (v.Bad? && !b.cancelled && left > 0 ==> |b.events| > |a.events| && b.events[|b.events| - 1] == HandlerFailed(r, v.retryable))
  }

  /** At most the given number of calls; a success is the last one, and so is the failure reported. */
  lemma {:induction false} TriedSeries(l: Loop, r: Record, left: nat, first: bool, last: Verdict)
    requires last.Bad?
    ensures var t := Tried(l, r, left, first, last);
            Series(l, t.0, t.1, r, left)
    decreases left
  {
    if left > 0 && (first || Reply(l).ok) {
      var w := if first then l else Slept(l);
      var n := Called(w, r);
      CallIsOnward(l, first, r);
      if !Reply(w).ok && !n.cancelled {
        TriedSeries(n, r, left - 1, false, VerdictOf(Reply(w)));
      }
    }
  }

  /** Parking ends with the record on its dead-letter topic, or with the end of the context. */
  lemma {:induction false} ParkingEnds(l: Loop, r: Record)
    ensures var p := Parking(l, r);
            && (l.cancelled ==> p.1.cancelled)
            && (if p.0 then p.1.events == l.events + [Parked(r)] else p.1.cancelled && p.1.events == l.events)
    decreases |l.script|
  {
    var n := Asked(l);
    if !Reply(l).ok && Reply(n).ok {
      ParkingEnds(Slept(n), r);
    }
  }

  lemma {:induction false} RetriedDecides(l: Loop, dl: Option<DeadLetter>, r: Record)
    ensures var t := Retried(l, dl, r);
            && Onward(l, t.1, r) && (if t.0 then Decided(l, t.1, r, dl) else t.1.cancelled)
    decreases |l.script|
  {
    if Reply(l).ok {
      var w := Slept(l);
      var v, n := VerdictOf(Reply(w)), Called(w, r);
      if v.Bad? && !n.cancelled {
        if Holds(dl, v.retryable) {
          RetriedDecides(n, dl, r);
        } else {
          ParkingEnds(n, r);
        }
      }
    }
  }

  /**
   A record's offset may advance only when it was handled without error or parked by the rules; giving up on it
   means the context has ended. Nothing else happens to any other record meanwhile.
   */
  lemma DispatchDecides(l: Loop, dl: Option<DeadLetter>, r: Record)
    requires Attempts(dl) >= 1
    ensures var d := Dispatched(l, dl, r);
            && Onward(l, d.1, r) && (if d.0 then Decided(l, d.1, r, dl) else d.1.cancelled)
  {
    var t := Tried(l, r, Attempts(dl), true, Bad(false));
    TriedSeries(l, r, Attempts(dl), true, Bad(false));
    if t.0.Bad? && !t.1.cancelled {
      if Holds(dl, t.0.retryable) {
        RetriedDecides(t.1, dl, r);
      } else {
        ParkingEnds(t.1, r);
      }
    }
  }

  // ---- which failures are held and which are parked ----------------------------------------------

  /** A handler call, as opposed to a publish to the dead-letter topic. */
  predicate IsCall(e: Event) {
    e.HandledOk? || e.HandlerFailed?
  }

  /**
   What may come after a failure once the attempts are used up. Without a dead-letter topic the record is called
   again, and never parked. With one that knows which errors are retryable it is called again after such an error and
   parked after any other. With one that does not, it is parked.
   */
  predicate MayFollow(retryable: bool, e: Event, dl: Option<DeadLetter>) {
    && (dl == None ==> !e.Parked?)
    && (dl.Some? && dl.value.knowsRetryable ==> (IsCall(e) <==> retryable))
    && (dl.Some? && !dl.value.knowsRetryable ==> e.Parked?)
  }

  /**
   The rule of the loop, for the event at position k of what happened to a record since it was first called: failures
   come before it; among the attempts it is a call; after them it is what may follow the failure before it.
   */
  predicate ByRule(es: seq<Event>, k: nat, r: Record, dl: Option<DeadLetter>)
    requires k < |es|
  {
    && es[k].r == r
    && (k > 0 ==> es[k - 1].HandlerFailed?)
    && (if k < (if dl.Some? then dl.value.attempts else 1) then IsCall(es[k]) else k > 0 && MayFollow(es[k - 1].retryable, es[k], dl))
  }

  ghost predicate FollowsRule(es: seq<Event>, r: Record, dl: Option<DeadLetter>) {
    forall k :: 0 <= k < |es| ==> ByRule(es, k, r, dl)
  }

  /** A record is settled by a success or a parking; one that is not was given up on when its context ended. */
  predicate Ends(es: seq<Event>, settled: bool, cancelled: bool) {
    if settled then es != [] && !es[|es| - 1].HandlerFailed?
    else cancelled && (es == [] || es[|es| - 1].HandlerFailed?)
  }

  /** What b's loop did that a's had not done yet. */
  function Since(a: Loop, b: Loop): seq<Event>
    requires a.events <= b.events
  {
    b.events[|a.events|..]
  }

  lemma SinceFirst(a: Loop, b: Loop, c: Loop)
    requires a.events <= b.events <= c.events
    ensures Since(a, c) == Since(a, b) + Since(b, c)
  {
  }

  /** The calls of a series of attempts: failures up to a success, and all of them unless the context ends first. */
  ghost predicate Attempted(es: seq<Event>, v: Verdict, r: Record, left: nat, cancelled: bool) {
    && |es| <= left
    && (forall k :: 0 <= k < |es| ==> es[k].r == r && IsCall(es[k]) && (k < |es| - 1 ==> es[k].HandlerFailed?))
    && (v.Fine? ==> es != [] && es[|es| - 1] == HandledOk(r))
    && (v.Bad? && es != [] ==> es[|es| - 1].HandlerFailed?)
    && (v.Bad? && !cancelled ==> |es| == left && (left > 0 ==> es[left - 1] == HandlerFailed(r, v.retryable)))
  }

  lemma OneMoreAttempt(e: Event, rest: seq<Event>, v: Verdict, r: Record, left: nat, cancelled: bool)
    requires e.HandlerFailed? && e.r == r && Attempted(rest, v, r, left, cancelled)
    requires left == 0 ==> v == Bad(e.retryable)
    ensures Attempted([e] + rest, v, r, left + 1, cancelled)
  {
    var es := [e] + rest;
    forall k | 0 <= k < |es| ensures es[k].r == r && IsCall(es[k]) && (k < |es| - 1 ==> es[k].HandlerFailed?) {
      assert k > 0 ==> es[k] == rest[k - 1];
    }
    assert rest != [] ==> es[|es| - 1] == rest[|rest| - 1];
  }

  function EventOf(a: Answer, r: Record): Event {
    if a.ok then HandledOk(r) else HandlerFailed(r, a.retryable)
  }

  lemma CallAdds(l: Loop, first: bool, r: Record)
    ensures var w := if first then l else Slept(l);
            l.events <= Called(w, r).events && Since(l, Called(w, r)) == [EventOf(Reply(w), r)]
  {
  }

  /** A call that succeeds, or ends with the context, is the last. */
  lemma LoneAttempt(a: Answer, e: Event, r: Record, left: nat, cancelled: bool)
    requires e == EventOf(a, r) && (a.ok || cancelled) && left > 0
    ensures Attempted([e], VerdictOf(a), r, left, cancelled)
  {
  }

  lemma TriedOnce(l: Loop, r: Record, left: nat, first: bool, last: Verdict)
    requires left > 0 && (first || Reply(l).ok)
    ensures var w := if first then l else Slept(l);
            var n, v := Called(w, r), VerdictOf(Reply(w));
            Tried(l, r, left, first, last) == if v.Fine? || n.cancelled then (v, n) else Tried(n, r, left - 1, false, v)
  {
  }

  lemma NoAttempt(l: Loop, r: Record, left: nat, first: bool, last: Verdict)
    requires last.Bad? && (left == 0 || (!first && !Reply(l).ok))
    ensures var t := Tried(l, r, left, first, last);
            && l.events <= t.1.events && Since(l, t.1) == [] && t.0 == last && (left > 0 ==> t.1.cancelled)
  {
  }

  /** A failure followed by what a shorter series did. */
  lemma FailedOnce(l: Loop, n: Loop, t: Loop, failed: Verdict, v: Verdict, r: Record, left: nat)
    requires failed.Bad? && l.events <= n.events <= t.events && Since(l, n) == [HandlerFailed(r, failed.retryable)]
    requires Attempted(Since(n, t), v, r, left, t.cancelled) && (left == 0 ==> v == failed)
    ensures Attempted(Since(l, t), v, r, left + 1, t.cancelled)
  {
    SinceFirst(l, n, t);
    OneMoreAttempt(HandlerFailed(r, failed.retryable), Since(n, t), v, r, left, t.cancelled);
  }

  lemma {:induction false} TriedAttempts(l: Loop, r: Record, left: nat, first: bool, last: Verdict)
    requires last.Bad?
    ensures var t := Tried(l, r, left, first, last);
            && l.events <= t.1.events && Attempted(Since(l, t.1), t.0, r, left, t.1.cancelled)
            && (left == 0 ==> t.0 == last)
    decreases left
  {
    if left > 0 && (first || Reply(l).ok) {
      var w := if first then l else Slept(l);
      var n, v := Called(w, r), VerdictOf(Reply(w));
      CallAdds(l, first, r);
      TriedOnce(l, r, left, first, last);
      if v.Bad? && !n.cancelled {
        TriedAttempts(n, r, left - 1, false, v);
        FailedOnce(l, n, Tried(n, r, left - 1, false, v).1, v, Tried(n, r, left - 1, false, v).0, r, left - 1);
      } else {
        LoneAttempt(Reply(w), EventOf(Reply(w), r), r, left, n.cancelled);
      }
    } else {
      NoAttempt(l, r, left, first, last);
    }
  }

  /** What happens to a record after a failure that used up its attempts. */
  ghost predicate Resumed(before: Event, es: seq<Event>, r: Record, dl: Option<DeadLetter>)
    decreases |es|
  {
    es != [] ==> before.HandlerFailed? && es[0].r == r && MayFollow(before.retryable, es[0], dl) && Resumed(es[0], es[1..], r, dl)
  }

  lemma ParkingResumes(l: Loop, dl: Option<DeadLetter>, r: Record, before: Event)
    requires before.HandlerFailed? && dl.Some? && (dl.value.knowsRetryable ==> !before.retryable)
    ensures var p := Parking(l, r);
            l.events <= p.1.events && Resumed(before, Since(l, p.1), r, dl) && Ends([before] + Since(l, p.1), p.0, p.1.cancelled)
  {
    ParkingEnds(l, r);
    assert Since(l, Parking(l, r).1) == if Parking(l, r).0 then [Parked(r)] else [];
    assert [Parked(r)][1..] == [];
  }

  lemma {:induction false} RetriedResumes(l: Loop, dl: Option<DeadLetter>, r: Record, before: Event)
    requires before.HandlerFailed? && (dl == None || (dl.value.knowsRetryable && before.retryable))
    ensures var t := Retried(l, dl, r);
            l.events <= t.1.events && Resumed(before, Since(l, t.1), r, dl) && Ends([before] + Since(l, t.1), t.0, t.1.cancelled)
    decreases |l.script|
  {
    if Reply(l).ok {
      var w := Slept(l);
      var v, n := VerdictOf(Reply(w)), Called(w, r);
      var e := n.events[|l.events|];
      assert Since(l, n) == [e] && [e][1..] == [];
      if v.Bad? && !n.cancelled {
        var t := Retried(l, dl, r);
        if dl == None || (dl.value.knowsRetryable && v.retryable) {
          RetriedResumes(n, dl, r, e);
        } else {
          ParkingResumes(n, dl, r, e);
        }
        SinceFirst(l, n, t.1);
        assert ([e] + Since(n, t.1))[1..] == Since(n, t.1);
      }
    }
  }

  lemma {:induction false} ResumedAt(before: Event, es: seq<Event>, r: Record, dl: Option<DeadLetter>, k: nat)
    requires Resumed(before, es, r, dl) && k < |es|
    ensures es[k].r == r
    ensures var prior := if k == 0 then before else es[k - 1];
            prior.HandlerFailed? && MayFollow(prior.retryable, es[k], dl)
    decreases |es|
  {
    if k > 0 {
      ResumedAt(es[0], es[1..], r, dl, k - 1);
    }
  }

  /** Attempts that all failed, then what may follow the last failure, and so on: that is the rule. */
  lemma RuleJoins(first: seq<Event>, rest: seq<Event>, r: Record, dl: Option<DeadLetter>)
    requires |first| == Attempts(dl) >= 1 && Attempted(first, Bad(first[|first| - 1].HandlerFailed? && first[|first| - 1].retryable), r, Attempts(dl), false)
    requires Resumed(first[|first| - 1], rest, r, dl)
    ensures FollowsRule(first + rest, r, dl)
  {
    var es, n := first + rest, |first|;
    forall k | 0 <= k < |es| ensures ByRule(es, k, r, dl) {
      if k < n {
        assert es[k] == first[k] && (k > 0 ==> es[k - 1] == first[k - 1]);
      } else {
        ResumedAt(first[n - 1], rest, r, dl, k - n);
        assert es[k] == rest[k - n] && es[k - 1] == if k == n then first[n - 1] else rest[k - n - 1];
      }
    }
  }

  /**
   A dispatched record is called up to its configured attempts, then held or parked by the rule, until it is settled
   or its context ends.
   */
  lemma DispatchFollowsRule(l: Loop, dl: Option<DeadLetter>, r: Record)
    requires Attempts(dl) >= 1
    ensures var d := Dispatched(l, dl, r);
            l.events <= d.1.events && FollowsRule(Since(l, d.1), r, dl) && Ends(Since(l, d.1), d.0, d.1.cancelled)
  {
    var d := Dispatched(l, dl, r);
    var t := Tried(l, r, Attempts(dl), true, Bad(false));
    TriedAttempts(l, r, Attempts(dl), true, Bad(false));
    var first := Since(l, t.1);
    if t.0.Bad? && !t.1.cancelled {
      FailedResumes(l, dl, r);
      SinceFirst(l, t.1, d.1);
      RuleJoins(first, Since(t.1, d.1), r, dl);
      EndsJoin(first, Since(t.1, d.1), d.0, d.1.cancelled);
    } else {
      AttemptsAlone(first, t.0, r, dl, t.1.cancelled);
    }
  }

  /** What a dispatch does once the attempts are used up is what may follow the last of them. */
  lemma FailedResumes(l: Loop, dl: Option<DeadLetter>, r: Record)
    requires Attempts(dl) >= 1
    requires var t := Tried(l, r, Attempts(dl), true, Bad(false));
             && t.0.Bad? && !t.1.cancelled && l.events <= t.1.events
             && Attempted(Since(l, t.1), t.0, r, Attempts(dl), false)
    ensures var t := Tried(l, r, Attempts(dl), true, Bad(false));
            var before := HandlerFailed(r, t.0.retryable);
            var d := Dispatched(l, dl, r);
            && t.1.events <= d.1.events && Resumed(before, Since(t.1, d.1), r, dl)
            && Ends([before] + Since(t.1, d.1), d.0, d.1.cancelled)
  {
    var t := Tried(l, r, Attempts(dl), true, Bad(false));
    var before := HandlerFailed(r, t.0.retryable);
    if dl == None || (dl.value.knowsRetryable && t.0.retryable) {
      RetriedResumes(t.1, dl, r, before);
    } else {
      ParkingResumes(t.1, dl, r, before);
    }
  }

  lemma EndsJoin(first: seq<Event>, rest: seq<Event>, settled: bool, cancelled: bool)
    requires first != [] && Ends([first[|first| - 1]] + rest, settled, cancelled)
    ensures Ends(first + rest, settled, cancelled)
  {
  }

  /** A series that ends in a success, or with its context, is by the rule on its own. */
  lemma AttemptsAlone(es: seq<Event>, v: Verdict, r: Record, dl: Option<DeadLetter>, cancelled: bool)
    requires Attempted(es, v, r, Attempts(dl), cancelled) && (v.Fine? || cancelled)
    ensures FollowsRule(es, r, dl) && Ends(es, v.Fine?, cancelled)
  {
    forall k | 0 <= k < |es| ensures ByRule(es, k, r, dl) {
      assert k > 0 ==> es[k - 1].HandlerFailed?;
    }
  }

  // ---- settled records have evidence ----------------------------------------------------------

  /** The record was handled without error or parked at some time. */
  predicate Evidence(events: seq<Event>, r: Record) {
    HandledOk(r) in events || Parked(r) in events
  }

  ghost predicate Proven(p: Process) {
    SessionOk(p.session) && forall r :: r in p.session.settled ==> Evidence(p.loop.events, r)
  }

  lemma EvidenceStays(a: seq<Event>, b: seq<Event>, r: Record)
    requires a <= b && Evidence(a, r)
    ensures Evidence(b, r)
  {
    var k :| 0 <= k < |a| && (a[k] == HandledOk(r) || a[k] == Parked(r));
    assert b[k] == a[k];
  }

  lemma {:induction false} BatchSettles(l: Loop, dl: Option<DeadLetter>, records: seq<Record>)
    requires Attempts(dl) >= 1
    ensures var b := Batch(l, dl, records);
            && b.0 <= |records| && l.events <= b.1.events && (l.cancelled ==> b.1.cancelled)
            && (b.0 < |records| ==> b.1.cancelled)
            && forall k :: 0 <= k < b.0 ==> Evidence(b.1.events, records[k])
    decreases |records|
  {
    if records != [] {
      var d := Dispatched(l, dl, records[0]);
      DispatchDecides(l, dl, records[0]);
      if d.0 {
        BatchSettles(d.1, dl, records[1..]);
        var b := Batch(l, dl, records);
        assert Evidence(d.1.events, records[0]);
        EvidenceStays(d.1.events, b.1.events, records[0]);
        forall k | 0 <= k < b.0 ensures Evidence(b.1.events, records[k]) {
          if k > 0 {
            assert records[1..][k - 1] == records[k];
          }
        }
      }
    }
  }

  /** Settling n records of the queue settles exactly its first n. */
  lemma {:induction false} SettlesTake(s: Session, n: nat)
    requires n <= |s.queue|
    ensures var t := RunActs(s, seq(n, _ => Settle));
            && t.queue == s.queue[n..] && t.pos == s.pos && t.committed == s.committed
            && forall r :: r in t.settled <==> r in s.settled || r in s.queue[..n]
    decreases n
  {
    if n > 0 {
      var m := Next(s, Settle);
      SettlesTake(m, n - 1);
      assert seq(n, _ => Settle)[1..] == seq(n - 1, _ => Settle);
      assert s.queue[..n] == [s.queue[0]] + m.queue[..n - 1];
    }
  }

  lemma {:induction false} SettlesKeepOk(s: Session, n: nat)
    requires SessionOk(s)
    ensures SessionOk(RunActs(s, seq(n, _ => Settle)))
    decreases n
  {
    if n > 0 {
      NextKeepsOk(s, Settle);
      SettlesKeepOk(Next(s, Settle), n - 1);
      assert seq(n, _ => Settle)[1..] == seq(n - 1, _ => Settle);
    }
  }

  /** A fetch keeps the evidence complete; if it was not settled to its end, the context has ended. */
  lemma FetchKeepsProven(p: Process, dl: Option<DeadLetter>, takes: seq<Take>)
    requires Proven(p) && p.session.queue == [] && Attempts(dl) >= 1
    ensures Proven(OneFetch(p, dl, takes)) && p.loop.events <= OneFetch(p, dl, takes).loop.events
    ensures OneFetch(p, dl, takes).session.queue != [] ==> OneFetch(p, dl, takes).loop.cancelled
  {
    var polled := Next(p.session, Poll(takes));
    var b := Batch(p.loop, dl, polled.queue);
    var settled := RunActs(polled, seq(b.0, _ => Settle));
    NextKeepsOk(p.session, Poll(takes));
    BatchSettles(p.loop, dl, polled.queue);
    SettlesTake(polled, b.0);
    SettlesKeepOk(polled, b.0);
    NextKeepsOk(settled, Commit);
    forall r | r in settled.settled ensures Evidence(b.1.events, r) {
      if r in p.session.settled {
        EvidenceStays(p.loop.events, b.1.events, r);
      } else {
        var k :| 0 <= k < b.0 && polled.queue[..b.0][k] == r;
      }
    }
  }

  /** Over a whole process lifetime; at its end the context has. */
  lemma {:induction false} PolledKeepsProven(p: Process, dl: Option<DeadLetter>, polls: seq<Fetch>)
    requires Proven(p) && (p.session.queue == [] || p.loop.cancelled) && Attempts(dl) >= 1
    ensures Proven(Polled(p, dl, polls)) && Polled(p, dl, polls).loop.cancelled
    ensures p.loop.events <= Polled(p, dl, polls).loop.events
    decreases |polls|
  {
    if !p.loop.cancelled && polls != [] {
      if polls[0].Failed? {
        PolledKeepsProven(p, dl, polls[1..]);
      } else {
        FetchKeepsProven(p, dl, polls[0].takes);
        PolledKeepsProven(OneFetch(p, dl, polls[0].takes), dl, polls[1..]);
      }
    }
  }

  /** A process that dies; its successor starts with other answers from what was committed. */
  function Restarted(p: Process, script: seq<Answer>): Process {
    Process(Loop(script, false, p.loop.events), Next(p.session, Restart))
  }

  /** Process lifetimes one after the other, each with its own answers and polls. */
  function Lifetimes(p: Process, dl: Option<DeadLetter>, lives: seq<(seq<Answer>, seq<Fetch>)>): Process
    decreases |lives|
  {
    if lives == [] then p else Lifetimes(Polled(Restarted(p, lives[0].0), dl, lives[0].1), dl, lives[1..])
  }

  /**
   Across any number of restarts, and whatever fails, every record below a committed offset was handled without
   error or published to its dead-letter topic.
   */
  lemma {:induction false} CommittedHaveEvidence(p: Process, dl: Option<DeadLetter>, lives: seq<(seq<Answer>, seq<Fetch>)>)
    requires Proven(p) && Attempts(dl) >= 1
    ensures var q := Lifetimes(p, dl, lives);
            Proven(q) && forall part, o :: 0 <= o < At(q.session.committed, part) ==> Evidence(q.loop.events, Record(part, o))
    decreases |lives|
  {
    if lives == [] {
      forall part, o | 0 <= o < At(p.session.committed, part) ensures Evidence(p.loop.events, Record(part, o)) {
        assert Record(part, o) in p.session.settled;
      }
    } else {
      NextKeepsOk(p.session, Restart);
      PolledKeepsProven(Restarted(p, lives[0].0), dl, lives[0].1);
      CommittedHaveEvidence(Polled(Restarted(p, lives[0].0), dl, lives[0].1), dl, lives[1..]);
    }
  }

  /** Every parking came right after a failure of the same record that the dead-letter topic is for. */
  ghost predicate ParkedByRule(events: seq<Event>, dl: Option<DeadLetter>) {
    forall k :: 0 <= k < |events| && events[k].Parked? ==>
      && dl.Some? && k > 0 && events[k - 1].HandlerFailed? && events[k - 1].r == events[k].r
      && (dl.value.knowsRetryable ==> !events[k - 1].retryable)
  }

  lemma DispatchParksByRule(l: Loop, dl: Option<DeadLetter>, r: Record)
    requires Attempts(dl) >= 1 && ParkedByRule(l.events, dl)
    ensures ParkedByRule(Dispatched(l, dl, r).1.events, dl)
  {
    var d := Dispatched(l, dl, r);
    DispatchFollowsRule(l, dl, r);
    var n, es := |l.events|, Since(l, d.1);
    forall k | 0 <= k < |d.1.events| && d.1.events[k].Parked?
      ensures && dl.Some? && k > 0 && d.1.events[k - 1].HandlerFailed? && d.1.events[k - 1].r == d.1.events[k].r
              && (dl.value.knowsRetryable ==> !d.1.events[k - 1].retryable)
    {
      if k < n {
        assert d.1.events[k] == l.events[k] && (k > 0 ==> d.1.events[k - 1] == l.events[k - 1]);
      } else {
        assert es[k - n] == d.1.events[k];
        assert ByRule(es, k - n, r, dl);
        assert ByRule(es, k - n - 1, r, dl) && es[k - n - 1] == d.1.events[k - 1];
      }
    }
  }

  lemma {:induction false} BatchParksByRule(l: Loop, dl: Option<DeadLetter>, records: seq<Record>)
    requires Attempts(dl) >= 1 && ParkedByRule(l.events, dl)
    ensures ParkedByRule(Batch(l, dl, records).1.events, dl)
    decreases |records|
  {
    if records != [] {
      DispatchParksByRule(l, dl, records[0]);
      BatchParksByRule(Dispatched(l, dl, records[0]).1, dl, records[1..]);
    }
  }

  lemma {:induction false} PolledParksByRule(p: Process, dl: Option<DeadLetter>, polls: seq<Fetch>)
    requires Attempts(dl) >= 1 && ParkedByRule(p.loop.events, dl)
    ensures ParkedByRule(Polled(p, dl, polls).loop.events, dl)
    decreases |polls|
  {
    if !p.loop.cancelled && polls != [] {
      if polls[0].Failed? {
        PolledParksByRule(p, dl, polls[1..]);
      } else {
        BatchParksByRule(p.loop, dl, Next(p.session, Poll(polls[0].takes)).queue);
        PolledParksByRule(OneFetch(p, dl, polls[0].takes), dl, polls[1..]);
      }
    }
  }

  /** Over any process lifetimes: without a dead-letter topic nothing is parked, and never after an error to be held. */
  lemma {:induction false} LifetimesParkByRule(p: Process, dl: Option<DeadLetter>, lives: seq<(seq<Answer>, seq<Fetch>)>)
    requires Attempts(dl) >= 1 && ParkedByRule(p.loop.events, dl)
    ensures ParkedByRule(Lifetimes(p, dl, lives).loop.events, dl)
    decreases |lives|
  {
    if lives != [] {
      PolledParksByRule(Restarted(p, lives[0].0), dl, lives[0].1);
      LifetimesParkByRule(Polled(Restarted(p, lives[0].0), dl, lives[0].1), dl, lives[1..]);
    }
  }

  // ---- a lifetime is a run of the protocol -----------------------------------------------------

  /** The protocol acts of a lifetime. */
  function ActsOf(p: Process, dl: Option<DeadLetter>, polls: seq<Fetch>): seq<Act>
    decreases |polls|
  {
    if p.loop.cancelled || polls == [] then []
    else if polls[0].Failed? then ActsOf(p, dl, polls[1..])
    else ActsOfFetch(p, dl, polls[0].takes) + ActsOf(OneFetch(p, dl, polls[0].takes), dl, polls[1..])
  }

  function ActsOfFetch(p: Process, dl: Option<DeadLetter>, takes: seq<Take>): seq<Act> {
    var polled := Next(p.session, Poll(takes));
    var b := Batch(p.loop, dl, polled.queue);
    [Poll(takes)] + seq(b.0, _ => Settle) + (if b.0 >= |polled.queue| && Reply(b.1).ok then [Commit] else [])
  }

  lemma FetchIsRun(p: Process, dl: Option<DeadLetter>, takes: seq<Take>)
    ensures OneFetch(p, dl, takes).session == RunActs(p.session, ActsOfFetch(p, dl, takes))
    ensures Restart !in ActsOfFetch(p, dl, takes)
  {
    var polled := Next(p.session, Poll(takes));
    var b := Batch(p.loop, dl, polled.queue);
    var settles: seq<Act> := seq(b.0, _ => Settle);
    assert ([Poll(takes)] + settles)[1..] == settles;
    assert RunActs(p.session, [Poll(takes)] + settles) == RunActs(polled, settles);
    if b.0 >= |polled.queue| && Reply(b.1).ok {
      RunActsOne(p.session, [Poll(takes)] + settles, Commit);
    } else {
      assert [Poll(takes)] + settles + [] == [Poll(takes)] + settles;
    }
  }

  /** A lifetime takes the protocol's steps, none of them a restart. */
  lemma {:induction false} LifetimeIsRun(p: Process, dl: Option<DeadLetter>, polls: seq<Fetch>)
    ensures Polled(p, dl, polls).session == RunActs(p.session, ActsOf(p, dl, polls)) && Restart !in ActsOf(p, dl, polls)
    decreases |polls|
  {
    if !p.loop.cancelled && polls != [] {
      if polls[0].Failed? {
        LifetimeIsRun(p, dl, polls[1..]);
      } else {
        var q := OneFetch(p, dl, polls[0].takes);
        FetchIsRun(p, dl, polls[0].takes);
        LifetimeIsRun(q, dl, polls[1..]);
        RunActsAppend(p.session, ActsOfFetch(p, dl, polls[0].takes), ActsOf(q, dl, polls[1..]));
      }
    }
  }

  /** Once a record is given up on nothing more is polled or committed: the fetch that holds it is the last. */
  lemma GivenUpIsLast(p: Process, dl: Option<DeadLetter>, takes: seq<Take>, polls: seq<Fetch>)
    requires Proven(p) && p.session.queue == [] && Attempts(dl) >= 1
    requires OneFetch(p, dl, takes).session.queue != []
    ensures OneFetch(p, dl, takes).session.committed == p.session.committed
    ensures Polled(OneFetch(p, dl, takes), dl, polls) == OneFetch(p, dl, takes)
  {
    FetchKeepsProven(p, dl, takes);
    var polled := Next(p.session, Poll(takes));
    BatchSettles(p.loop, dl, polled.queue);
    SettlesTake(polled, Batch(p.loop, dl, polled.queue).0);
  }

  lemma {:induction false} OnPartitionAppend(a: seq<Record>, b: seq<Record>, p: nat)
    ensures |OnPartition(a + b, p)| == |OnPartition(a, p)| + |OnPartition(b, p)|
  {
    if a == [] {
      assert a + b == b;
    } else {
      assert (a + b)[1..] == a[1..] + b;
      OnPartitionAppend(a[1..], b, p);
    }
  }

  lemma {:induction false} RunOnPartition(p: nat, from: nat, count: nat, q: nat)
    ensures |OnPartition(RunOf(p, from, count), q)| == if p == q then count else 0
    decreases count
  {
    if count > 0 {
      assert RunOf(p, from, count)[1..] == RunOf(p, from + 1, count - 1);
      RunOnPartition(p, from + 1, count - 1, q);
    }
  }

  /** A poll moves each partition on by the records it fetched of it. */
  lemma {:induction false} PollMovesOn(pos: Offsets, takes: seq<Take>, q: nat)
    ensures At(Advance(pos, takes), q) == At(pos, q) + |OnPartition(Expand(pos, takes), q)|
    decreases takes
  {
    if takes != [] {
      var t := takes[0];
      var next := pos[t.partition := At(pos, t.partition) + t.count];
      PollMovesOn(next, takes[1..], q);
      OnPartitionAppend(RunOf(t.partition, At(pos, t.partition), t.count), Expand(next, takes[1..]), q);
      RunOnPartition(t.partition, At(pos, t.partition), t.count, q);
    }
  }

  /**
   What a fetch commits: if every record of it was settled and the commit is answered, each partition's offset moves
   on to just past the fetched records; otherwise no offset moves. One that was not settled to its end is the last.
   */
  lemma FetchCommits(p: Process, dl: Option<DeadLetter>, takes: seq<Take>, q: nat)
    requires Proven(p) && p.session.queue == [] && Attempts(dl) >= 1
    ensures var rs := Expand(p.session.pos, takes);
            var b := Batch(p.loop, dl, rs);
            var t := OneFetch(p, dl, takes);
            && (forall r :: r in t.session.settled <==> r in p.session.settled || r in rs[..b.0])
            && t.session.queue == rs[b.0..]
            && (if b.0 == |rs| && b.1.script != [] && b.1.script[0].ok then
                  At(t.session.committed, q) == At(p.session.pos, q) + |OnPartition(rs, q)|
                else t.session.committed == p.session.committed)
            && (b.0 < |rs| ==> t.loop.cancelled)
  {
    var polled := Next(p.session, Poll(takes));
    var b := Batch(p.loop, dl, polled.queue);
    BatchSettles(p.loop, dl, polled.queue);
    SettlesTake(polled, b.0);
    PollMovesOn(p.session.pos, takes, q);
  }

  function Answered(polls: seq<Fetch>): seq<Fetch> {
    if polls == [] then [] else (if polls[0].Failed? then [] else [polls[0]]) + Answered(polls[1..])
  }

  /** Fetches that fail leave no trace: the loop polls on as if they had not been. */
  lemma {:induction false} FailedFetchesSkipped(p: Process, dl: Option<DeadLetter>, polls: seq<Fetch>)
    ensures Polled(p, dl, polls) == Polled(p, dl, Answered(polls))
    decreases |polls|
  {
    if polls != [] && !p.loop.cancelled {
      if polls[0].Failed? {
        assert Answered(polls) == Answered(polls[1..]);
        FailedFetchesSkipped(p, dl, polls[1..]);
      } else {
        assert Answered(polls)[1..] == Answered(polls[1..]);
        FailedFetchesSkipped(OneFetch(p, dl, polls[0].takes), dl, polls[1..]);
      }
    }
  }

  // ---- the loop itself ---------------------------------------------------------------------------

  class ConsumerLoop {
    const dl: Option<DeadLetter>
    var script: seq<Answer>
    var cancelled: bool
    var events: seq<Event>
    var pos: Offsets
    var committed: Offsets
    ghost var session: Session

    constructor (dl: Option<DeadLetter>, script: seq<Answer>)
      ensures this.dl == (if dl.Some? && dl.value.attempts == 0 then Some(dl.value.(attempts := 3)) else dl)
      ensures Attempts(this.dl) >= 1 && Tracks() && session.queue == [] && Proven(State())
      ensures State() == Process(Loop(script, false, []), Session(map[], map[], map[], [], {}))
    {
      this.dl := if dl.Some? && dl.value.attempts == 0 then Some(dl.value.(attempts := 3)) else dl;
      this.script := script;
      this.cancelled := false;
      this.pos, this.committed, this.events := map[], map[], [];
      this.session := Session(map[], map[], map[], [], {});
      new;
      FreshSession();
    }

    function Env(): Loop
      reads this
    {
      Loop(script, cancelled, events)
    }

    ghost function State(): Process
      reads this
    {
      Process(Env(), session)
    }

    /** The client's offsets are the session's. */
    ghost predicate Tracks()
      reads this
    {
      session.pos == pos && session.committed == committed
    }

    method Ask() returns (a: Answer)
      modifies this`script, this`cancelled
      ensures a == Reply(old(Env())) && Env() == Asked(old(Env()))
    {
      if script == [] {
        a := Answer(false, false, true);
      } else {
        a := script[0];
        script := script[1..];
      }
      cancelled := cancelled || a.cancel;
    }

    /** Waits; false only once the context has ended. */
    method Sleep() returns (woke: bool)
      modifies this`script, this`cancelled
      ensures woke == Reply(old(Env())).ok && Env() == Slept(old(Env()))
    {
      var a := Ask();
      woke := a.ok;
      if !woke {
        cancelled := true;
      }
    }

    method CallHandler(r: Record) returns (v: Verdict)
      modifies this`script, this`cancelled, this`events
      ensures v == VerdictOf(Reply(old(Env()))) && Env() == Called(old(Env()), r)
    {
      var a := Ask();
      v := if a.ok then Fine else Bad(a.retryable);
      events := events + [if a.ok then HandledOk(r) else HandlerFailed(r, a.retryable)];
    }

    /** Calls the handler up to the configured number of times. */
    method HandleRecord(r: Record) returns (v: Verdict)
      modifies this`script, this`cancelled, this`events
      ensures (v, Env()) == Tried(old(Env()), r, Attempts(dl), true, Bad(false))
    {
      var attempts := if dl.Some? then dl.value.attempts else 1;
      v := Bad(false);
      var i := 0;
      while i < attempts
        invariant 0 <= i <= attempts
        invariant Tried(Env(), r, attempts - i, i == 0, v) == Tried(old(Env()), r, attempts, true, Bad(false))
      {
        if i > 0 {
          var woke := Sleep();
          if !woke {
            return;
          }
        }
        v := CallHandler(r);
        if v.Fine? || cancelled {
          return;
        }
        i := i + 1;
      }
    }

    /** Publishes to the dead-letter topic until it lands or the context ends. */
    method ParkInPlace(r: Record) returns (parked: bool)
      modifies this`script, this`cancelled, this`events
      ensures (parked, Env()) == Parking(old(Env()), r)
    {
      while true
        invariant Parking(Env(), r) == Parking(old(Env()), r)
        decreases |script|
      {
        var a := Ask();
        if a.ok {
          events := events + [Parked(r)];
          return true;
        }
        var woke := Sleep();
        if !woke {
          return false;
        }
      }
    }

    /** Retries a held record where it stands until it is handled, turns out bad and is parked, or the context ends. */
    method RetryInPlace(r: Record) returns (done: bool)
      modifies this`script, this`cancelled, this`events
      ensures (done, Env()) == Retried(old(Env()), dl, r)
    {
      while true
        invariant Retried(Env(), dl, r) == Retried(old(Env()), dl, r)
        decreases |script|
      {
        var woke := Sleep();
        if !woke {
          return false;
        }
        var v := CallHandler(r);
        if v.Fine? {
          return true;
        }
        if cancelled {
          return false;
        }
        if !(dl == None || (dl.value.knowsRetryable && v.retryable)) {
          done := ParkInPlace(r);
          return;
        }
      }
    }

    /** Decides one record; false means the context ended first. */
    method Dispatch(r: Record) returns (advance: bool)
      modifies this`script, this`cancelled, this`events
      ensures (advance, Env()) == Dispatched(old(Env()), dl, r)
    {
      var v := HandleRecord(r);
      if v.Fine? {
        return true;
      }
      if cancelled {
        return false;
      }
      if dl == None || (dl.value.knowsRetryable && v.retryable) {
        advance := RetryInPlace(r);
      } else {
        advance := ParkInPlace(r);
      }
    }

    /** Dispatches a fetch in order, up to the first record that is given up on. */
    method HandleFetches(records: seq<Record>) returns (committable: bool, ghost n: nat)
      modifies this`script, this`cancelled, this`events
      ensures (n, Env()) == Batch(old(Env()), dl, records)
      ensures committable <==> n == |records|
    {
      committable := true;
      n := 0;
      var i := 0;
      while i < |records| && committable
        invariant 0 <= i <= |records| && n == i
        invariant var was, rest := Batch(old(Env()), dl, records), Batch(Env(), dl, records[i..]);
                  if committable then was == (i + rest.0, rest.1) else i < |records| && was == (i, Env())
        decreases |records| - i, committable
      {
        assert records[i..][1..] == records[i + 1..];
        committable := Dispatch(records[i]);
        if committable {
          n := n + 1;
          i := i + 1;
        }
      }
    }

    /** Polls until the context ends. */
    method Run(polls: seq<Fetch>)
      requires Tracks() && session.queue == [] && Proven(State()) && Attempts(dl) >= 1
      modifies this
      ensures Tracks() && State() == Polled(old(State()), dl, polls)
    {
      var p := 0;
      while !cancelled
        invariant 0 <= p <= |polls|
        invariant Tracks() && (session.queue == [] || cancelled) && Proven(State())
        invariant Polled(State(), dl, polls[p..]) == Polled(old(State()), dl, polls)
        decreases !cancelled, |polls| - p
      {
        if p == |polls| {
          cancelled := true;
          break;
        }
        var fetch := polls[p];
        assert polls[p..][0] == fetch && polls[p..][1..] == polls[p + 1..];
        p := p + 1;
        if fetch.Failed? {
          continue;
        }
        PollOnce(fetch.takes);
      }
    }

    /** A fetch with records, and the commit that may follow it. */
    method PollOnce(takes: seq<Take>)
      requires Tracks() && session.queue == [] && Proven(State()) && Attempts(dl) >= 1
      modifies this
      ensures Tracks() && State() == OneFetch(old(State()), dl, takes)
      ensures Proven(State()) && (session.queue == [] || cancelled)
    {
      FetchKeepsProven(State(), dl, takes);
      var records := Expand(pos, takes);
      pos := Advance(pos, takes);
      session := Next(session, Poll(takes));
      var committable, n := HandleFetches(records);
      SettlesTake(session, n);
      session := RunActs(session, seq(n, _ => Settle));
      if committable {
        var a := Ask();
        if a.ok {
          committed := pos;
          session := Next(session, Commit);
        }
      }
    }

    /** A new process resumes from the committed offsets. */
    method StartAgain(script: seq<Answer>)
      requires Tracks()
      modifies this
      ensures Tracks() && State() == Restarted(old(State()), script)
    {
      this.script := script;
      cancelled := false;
      pos := committed;
      session := Next(session, Restart);
    }
  }
}
