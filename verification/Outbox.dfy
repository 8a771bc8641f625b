/**
 The transactional outbox and its relay.

 A row's id is its position in the table. Ids are handed out at insert, so rows may become visible out
 of id order; rows of one key do not, since the domain row they describe stays locked until commit.
 The broker's log is the sequence of row ids published, in order. There is one relay per table.
 */
module Outbox {
  import opened Base

  /** Pending rows belong to a transaction that has not committed; Aborted ones never will. */
  datatype Visibility = Pending | Visible | Aborted

  datatype Row<T> = Row(key: string, payload: T, visibility: Visibility, marked: bool)

  /** Waiting: between passes. Sending: a batch was read and its first sent rows are published. */
  datatype Relay = Waiting | Sending(batch: seq<nat>, sent: nat)

  datatype Table<T> = Table(rows: seq<Row<T>>, log: seq<nat>, relay: Relay)

  predicate Unsent<T>(rows: seq<Row<T>>, i: int) {
    0 <= i < |rows| && rows[i].visibility == Visible && !rows[i].marked
  }

  /** The first n visible unmarked rows at or after position from, in id order. */
  function FirstUnsent<T>(rows: seq<Row<T>>, from: nat, n: nat): seq<nat>
    decreases |rows| - from
  {
    if from >= |rows| || n == 0 then []
    else if Unsent(rows, from) then [from] + FirstUnsent(rows, from + 1, n - 1)
    else FirstUnsent(rows, from + 1, n)
  }

  function Marked<T>(rows: seq<Row<T>>, ids: seq<nat>): (r: seq<Row<T>>)
    ensures |r| == |rows|
  {
    seq(|rows|, i requires 0 <= i < |rows| => if i in ids then rows[i].(marked := true) else rows[i])
  }

  /** The longest prefix of rows of the same key before i may all be committed or aborted: i may commit. */
  predicate MayCommit<T>(rows: seq<Row<T>>, i: int) {
    0 <= i < |rows| && rows[i].visibility == Pending
    && forall j :: 0 <= j < i && rows[j].key == rows[i].key ==> rows[j].visibility != Pending
  }

  // ---- the step system -------------------------------------------------------------

  datatype Act<T> =
    | Write(key: string, payload: T)     // a transaction inserts its row
    | Commit(row: nat)
    | Rollback(row: nat)
    | Fetch(limit: nat)                  // the relay reads a batch
    | Publish                            // the broker acknowledges the next row
    | GiveUp                             // a publish fails: what was sent is still to be marked
    | Mark                               // the UPDATE commits
    | Drop                               // it fails, or the process crashes

  function Next<T>(t: Table<T>, act: Act<T>): Table<T> {
    match act
    case Write(key, payload) => t.(rows := t.rows + [Row(key, payload, Pending, false)])
    case Commit(i) =>
      if MayCommit(t.rows, i) then t.(rows := t.rows[i := t.rows[i].(visibility := Visible)]) else t
    case Rollback(i) =>
      if i < |t.rows| && t.rows[i].visibility == Pending then t.(rows := t.rows[i := t.rows[i].(visibility := Aborted)]) else t
    case Fetch(limit) =>
      if t.relay == Waiting then t.(relay := Sending(FirstUnsent(t.rows, 0, limit), 0)) else t
    case Publish =>
      if t.relay.Sending? && t.relay.sent < |t.relay.batch| then
        t.(log := t.log + [t.relay.batch[t.relay.sent]], relay := t.relay.(sent := t.relay.sent + 1))
      else t
    case GiveUp =>
      if t.relay.Sending? && t.relay.sent <= |t.relay.batch| then t.(relay := t.relay.(batch := t.relay.batch[..t.relay.sent])) else t
    case Mark =>
      if t.relay.Sending? && t.relay.sent == |t.relay.batch| then Table(Marked(t.rows, t.relay.batch), t.log, Waiting) else t
    case Drop => t.(relay := Waiting)
  }

  function Run<T>(t: Table<T>, acts: seq<Act<T>>): Table<T>
    decreases |acts|
  {
    if acts == [] then t else Run(Next(t, acts[0]), acts[1..])
  }

  lemma {:induction false} RunAppend<T>(t: Table<T>, a: seq<Act<T>>, b: seq<Act<T>>)
    ensures Run(t, a + b) == Run(Run(t, a), b)
    decreases |a|
  {
    if a == [] {
      assert a + b == b;
    } else {
      assert (a + b)[1..] == a[1..] + b;
      RunAppend(Next(t, a[0]), a[1..], b);
    }
  }

  /** The relay's own steps; no writer's. */
  predicate RelayOnly<T>(trace: seq<Act<T>>) {
    forall k :: 0 <= k < |trace| ==> !trace[k].Write? && !trace[k].Commit? && !trace[k].Rollback?
  }

  // ---- the relay as it runs ------------------------------------------------------------

  /** What one pass meets: after how many acknowledgements a publish fails, if any, and whether the UPDATE lands. */
  datatype Fault = Fault(publishFailsAfter: Option<nat>, markLands: bool)

  const NO_FAULT := Fault(None, true)

  class OutboxRelay<T> {
    var rows: seq<Row<T>>
    var log: seq<nat>
    const batch: nat

    function State(): Table<T>
      reads this
    {
      Table(rows, log, Waiting)
    }

    constructor (rows: seq<Row<T>>, batch: int)
      ensures State() == Table(rows, [], Waiting)
      ensures this.batch == (if batch <= 0 then 100 else batch) && this.batch >= 1
    {
      this.rows := rows;
      this.log := [];
      this.batch := if batch <= 0 then 100 else batch;
    }

    /** The SELECT of a pass. */
    method ReadBatch() returns (pending: seq<nat>)
      ensures pending == FirstUnsent(rows, 0, batch)
    {
      pending := [];
      var i := 0;
      while i < |rows| && |pending| < batch
        invariant 0 <= i <= |rows| && |pending| <= batch
        invariant pending + FirstUnsent(rows, i, batch - |pending|) == FirstUnsent(rows, 0, batch)
      {
        if rows[i].visibility == Visible && !rows[i].marked {
          assert pending + ([i] + FirstUnsent(rows, i + 1, batch - |pending| - 1)) ==
                 (pending + [i]) + FirstUnsent(rows, i + 1, batch - |pending| - 1);
          pending := pending + [i];
        }
        i := i + 1;
      }
    }

    /** Publishes in order up to the first failure. */
    method PublishBatch(pending: seq<nat>, failsAfter: Option<nat>) returns (published: seq<nat>, failed: bool)
      modifies this`log
      ensures published <= pending && log == old(log) + published
      ensures failed <==> published != pending
      ensures failed ==> failsAfter == Some(|published|)
    {
      published := [];
      failed := false;
      var k := 0;
      while k < |pending| && !failed
        invariant 0 <= k <= |pending| && published == pending[..k]
        invariant log == old(log) + published
        invariant failed ==> k < |pending| && failsAfter == Some(k)
        decreases |pending| - k, !failed
      {
        if failsAfter == Some(k) {
          failed := true;
        } else {
          log := log + [pending[k]];
          published := published + [pending[k]];
          k := k + 1;
        }
      }
    }

    /** One pass. The trace it leaves is one of the step system's. */
    method DrainOnce(fault: Fault) returns (n: nat, failed: bool, ghost trace: seq<Act<T>>)
      modifies this`rows, this`log
      ensures State() == Run(old(State()), trace)
      ensures RelayOnly(trace)
      ensures var all := FirstUnsent(old(rows), 0, batch);
              && n <= |all| && log == old(log) + all[..n]
              && rows == (if n > 0 && fault.markLands then Marked(old(rows), all[..n]) else old(rows))
              && (failed <==> n < |all| || (n > 0 && !fault.markLands))
              && (n < |all| ==> fault.publishFailsAfter == Some(n))
    {
      var pending := ReadBatch();
      var published, pubErr := PublishBatch(pending, fault.publishFailsAfter);
      n := |published|;
      failed := pubErr;
      assert published == pending[..n];
      if n > 0 {
        if fault.markLands {
          rows := Marked(rows, published);
        } else {
          failed := true;
        }
      }
      trace := PassTrace(batch, n, pubErr, n > 0 && fault.markLands);
      PassRuns(old(State()), batch, n, pubErr, n > 0 && fault.markLands);
    }

    /**
     Drains until a pass comes back short or fails. With no rows arriving it terminates, and with no
     failing call everything visible is marked when it returns.
     */
    method DrainUntilEmpty(faults: seq<Fault>) returns (failed: bool, ghost trace: seq<Act<T>>)
      requires batch >= 1
      modifies this`rows, this`log
      ensures State() == Run(old(State()), trace) && RelayOnly(trace)
      ensures !failed ==> forall i :: !Unsent(rows, i)
      ensures !failed ==> forall i :: 0 <= i < |rows| && rows[i].visibility == Visible ==> rows[i].marked
      ensures (forall k :: 0 <= k < |faults| ==> faults[k] == NO_FAULT) ==> !failed
    {
      var pass := 0;
      trace := [];
      while true
        invariant State() == Run(old(State()), trace) && RelayOnly(trace)
        decreases UnsentCount(rows)
      {
        ghost var before := rows;
        var n, err, steps := DrainOnce(if pass < |faults| then faults[pass] else NO_FAULT);
        pass := pass + 1;
        RunAppend(old(State()), trace, steps);
        trace := trace + steps;
        if err {
          failed := true;
          return;
        }
        if n < batch {
          ShortPassLeavesNone(before, rows, batch);
          assert forall i :: 0 <= i < |rows| && rows[i].visibility == Visible && !rows[i].marked ==> Unsent(rows, i);
          failed := false;
          return;
        }
        FullPassLowersCount(before, batch);
      }
    }
  }

  /** A pass that came back short and marked what it published leaves nothing unsent. */
  lemma ShortPassLeavesNone<T>(before: seq<Row<T>>, after: seq<Row<T>>, batch: nat)
    requires var all := FirstUnsent(before, 0, batch);
             |all| < batch && after == if |all| > 0 then Marked(before, all[..|all|]) else before
    ensures forall i :: !Unsent(after, i)
  {
    var all := FirstUnsent(before, 0, batch);
    FirstUnsentMeaning(before, 0, batch);
    assert all[..|all|] == all;
    forall i ensures !Unsent(after, i) {
      if Unsent(before, i) {
        assert i in all;
      }
    }
  }

  lemma FullPassLowersCount<T>(before: seq<Row<T>>, batch: nat)
    requires |FirstUnsent(before, 0, batch)| >= batch >= 1
    ensures var all := FirstUnsent(before, 0, batch);
            UnsentCount(Marked(before, all[..|all|])) < UnsentCount(before)
  {
    var all := FirstUnsent(before, 0, batch);
    FirstUnsentMeaning(before, 0, batch);
    assert all[..|all|] == all && all[0] in all;
    MarkingLowersCount(before, all, all[0]);
  }

  /** The steps of one pass that publishes n rows. */
  ghost function PassTrace<T>(batch: nat, n: nat, pubErr: bool, marks: bool): (trace: seq<Act<T>>)
    ensures RelayOnly(trace)
  {
    [Fetch(batch)] + seq(n, _ => Publish) + (if pubErr then [GiveUp] else []) + [if marks then Mark else Drop]
  }

  lemma PassRuns<T>(t: Table<T>, batch: nat, n: nat, pubErr: bool, marks: bool)
    requires t.relay == Waiting && n <= |FirstUnsent(t.rows, 0, batch)|
    requires pubErr <==> n < |FirstUnsent(t.rows, 0, batch)|
    ensures var sent := FirstUnsent(t.rows, 0, batch)[..n];
            Run(t, PassTrace(batch, n, pubErr, marks)) ==
            Table(if marks then Marked(t.rows, sent) else t.rows, t.log + sent, Waiting)
  {
    var all := FirstUnsent(t.rows, 0, batch);
    var fetch: seq<Act<T>> := [Fetch(batch)];
    var publishes: seq<Act<T>> := seq(n, _ => Publish);
    assert Run(t, fetch) == t.(relay := Sending(all, 0)) by {
      assert fetch[1..] == [];
    }
    PublishesRun(t.(relay := Sending(all, 0)), n);
    RunAppend(t, fetch, publishes);
    var u := Run(t, fetch + publishes);
    assert u == Table(t.rows, t.log + all[..n], Sending(all, n));
    var last: Act<T> := if marks then Mark else Drop;
    if pubErr {
      RunStep(t, fetch + publishes, GiveUp);
      RunStep(t, fetch + publishes + [GiveUp], last);
    } else {
      assert all[..n] == all;
      RunStep(t, fetch + publishes, last);
      assert fetch + publishes + [] == fetch + publishes;
    }
  }

  lemma {:induction false} PublishesRun<T>(t: Table<T>, n: nat)
    requires t.relay.Sending? && t.relay.sent == 0 && n <= |t.relay.batch|
    ensures Run(t, seq(n, _ => Publish)) == Table(t.rows, t.log + t.relay.batch[..n], Sending(t.relay.batch, n))
  {
    if n > 0 {
      PublishesRun(t, n - 1);
      var before: seq<Act<T>> := seq(n - 1, _ => Publish);
      assert seq(n, _ => Publish) == before + [Publish];
      RunStep(t, before, Publish);
    }
  }

  lemma RunStep<T>(t: Table<T>, trace: seq<Act<T>>, act: Act<T>)
    ensures Run(t, trace + [act]) == Next(Run(t, trace), act)
  {
    RunAppend(t, trace, [act]);
    assert [act][1..] == [];
  }

  ghost function UnsentCount<T>(rows: seq<Row<T>>): nat {
    if rows == [] then 0 else UnsentCount(rows[..|rows| - 1]) + (if Unsent(rows, |rows| - 1) then 1 else 0)
  }

  lemma {:induction false} FirstUnsentAscends<T>(rows: seq<Row<T>>, from: nat, n: nat)
    ensures var f := FirstUnsent(rows, from, n);
            && |f| <= n
            && (forall k :: 0 <= k < |f| ==> from <= f[k] && Unsent(rows, f[k]))
            && (forall j, k :: 0 <= j < k < |f| ==> f[j] < f[k])
    decreases |rows| - from
  {
    if from < |rows| && n > 0 {
      FirstUnsentAscends(rows, from + 1, if Unsent(rows, from) then n - 1 else n);
    }
  }

  lemma {:induction false} FirstUnsentSkipsNone<T>(rows: seq<Row<T>>, from: nat, n: nat, i: nat)
    requires from <= i && Unsent(rows, i)
    ensures var f := FirstUnsent(rows, from, n);
            i in f || (|f| == n && forall k :: 0 <= k < |f| ==> f[k] < i)
    decreases |rows| - from
  {
    if n > 0 && i > from {
      FirstUnsentSkipsNone(rows, from + 1, if Unsent(rows, from) then n - 1 else n, i);
    }
  }

  /** A row waits for the relay from when it is visible until it is marked. */
  lemma UnsentMeans<T>(rows: seq<Row<T>>, i: nat)
    ensures Unsent(rows, i) <==> i < |rows| && rows[i].visibility == Visible && !rows[i].marked
  {
  }

  /** FirstUnsent lists unsent rows in ascending order, skipping none, and all of them when it is short. */
  lemma FirstUnsentMeaning<T>(rows: seq<Row<T>>, from: nat, n: nat)
    ensures var f := FirstUnsent(rows, from, n);
            && |f| <= n
            && (forall k :: 0 <= k < |f| ==> from <= f[k] && Unsent(rows, f[k]))
            && (forall j, k :: 0 <= j < k < |f| ==> f[j] < f[k])
            && (forall k, i :: 0 <= k < |f| && from <= i < f[k] && Unsent(rows, i) ==> i in f[..k])
            && (|f| < n ==> forall i :: from <= i && Unsent(rows, i) ==> i in f)
  {
    var f := FirstUnsent(rows, from, n);
    FirstUnsentAscends(rows, from, n);
    forall i | from <= i && Unsent(rows, i) ensures i in f || (|f| == n && forall k :: 0 <= k < |f| ==> f[k] < i) {
      FirstUnsentSkipsNone(rows, from, n, i);
    }
    forall k, i | 0 <= k < |f| && from <= i < f[k] && Unsent(rows, i) ensures i in f[..k] {
      var j :| 0 <= j < |f| && f[j] == i;
      assert j < k;
      assert f[..k][j] == i;
    }
  }

  lemma {:induction false} MarkingLowersCount<T>(rows: seq<Row<T>>, ids: seq<nat>, i: nat)
    requires i in ids && Unsent(rows, i)
    ensures UnsentCount(Marked(rows, ids)) < UnsentCount(rows)
    decreases |rows|
  {
    var n := |rows| - 1;
    assert Marked(rows, ids)[..n] == Marked(rows[..n], ids);
    MarkingNeverRaisesCount(rows[..n], ids);
    if i < n {
      assert Unsent(rows[..n], i);
      MarkingLowersCount(rows[..n], ids, i);
    }
  }

  lemma {:induction false} MarkingNeverRaisesCount<T>(rows: seq<Row<T>>, ids: seq<nat>)
    ensures UnsentCount(Marked(rows, ids)) <= UnsentCount(rows)
  {
    if rows != [] {
      var n := |rows| - 1;
      assert Marked(rows, ids)[..n] == Marked(rows[..n], ids);
      MarkingNeverRaisesCount(rows[..n], ids);
    }
  }

  // ---- what every run keeps --------------------------------------------------------------------

  predicate SameKey<T>(t: Table<T>, i: int, j: int) {
    0 <= i < |t.rows| && 0 <= j < |t.rows| && t.rows[i].key == t.rows[j].key
  }

  /** Published rows are visible ones, and a marked row was published. */
  ghost predicate LogTrue<T>(t: Table<T>) {
    && (forall k :: 0 <= k < |t.log| ==> t.log[k] < |t.rows| && t.rows[t.log[k]].visibility == Visible)
    && (forall i :: 0 <= i < |t.rows| && t.rows[i].marked ==> i in t.log)
  }

  /** Rows of a key become visible in id order. */
  ghost predicate KeyOrdered<T>(t: Table<T>) {
    forall i, j :: 0 <= i < j && SameKey(t, i, j) && t.rows[j].visibility == Visible ==> t.rows[i].visibility != Pending
  }

  /** The marked rows of each key are a prefix of its visible ones. */
  ghost predicate MarkedPrefix<T>(t: Table<T>) {
    forall i, j :: 0 <= i < j && SameKey(t, i, j) && t.rows[i].visibility == Visible && t.rows[j].marked ==> t.rows[i].marked
  }

  /** A row's smaller visible siblings are in the log, each before the row first appears. */
  ghost predicate FirstsInOrder<T>(t: Table<T>) {
    forall k, i :: 0 <= k < |t.log| && 0 <= i < t.log[k] && SameKey(t, i, t.log[k]) && t.rows[i].visibility == Visible ==>
      i in t.log[..k]
  }

  /** Entry k is the last one of its key. */
  ghost predicate LastOf<T>(t: Table<T>, k: int) {
    0 <= k < |t.log| && forall m :: k < m < |t.log| ==> !SameKey(t, t.log[m], t.log[k])
  }

  /** The last log entry of a key is at or above every marked row of the key. */
  ghost predicate LastCoversMarks<T>(t: Table<T>) {
    forall k, j :: LastOf(t, k) && SameKey(t, t.log[k], j) && t.rows[j].marked ==> j <= t.log[k]
  }

  /** A batch in flight: unsent rows ascending, missing no smaller unsent sibling; its sent part ends the log. */
  ghost predicate BatchOk<T>(t: Table<T>) {
    t.relay.Sending? ==>
      var b, s := t.relay.batch, t.relay.sent;
      && s <= |b| && s <= |t.log| && t.log[|t.log| - s..] == b[..s]
      && (forall k :: 0 <= k < |b| ==> Unsent(t.rows, b[k]))
      && (forall j, k :: 0 <= j < k < |b| ==> b[j] < b[k])
      && (forall k, i :: 0 <= k < |b| && 0 <= i < b[k] && SameKey(t, i, b[k]) && Unsent(t.rows, i) ==> i in b[..k])
  }

  ghost predicate RelayInv<T>(t: Table<T>) {
    LogTrue(t) && KeyOrdered(t) && MarkedPrefix(t) && FirstsInOrder(t) && LastCoversMarks(t) && BatchOk(t)
  }
}
