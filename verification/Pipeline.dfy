/**
 From the catalog to the search index: product changes, the outbox relay, a consumer that fails and
 restarts, and the index it folds the log into, as one step system.
 */
module Pipeline {
  import opened Base
  import opened Search
  import Outbox
  import OutboxSafety
  import Consumer

  type Table = Outbox.Table<ProductChanged>
  type Record = Consumer.Record

  /** parked: the records set aside on the dead-letter topic. */
  datatype Pipe = Pipe(
    products: map<string, Product>, table: Table, session: Consumer.Session, docs: map<string, Doc>, parked: set<Record>)

  datatype Step =
    | Change(product: Product)                  // a writer's transaction inserts the product's outbox row
    | End(row: nat, commits: bool)              // the transaction of that row commits or rolls back
    | Relay(act: Outbox.Act<ProductChanged>)
    | Poll(takes: seq<Consumer.Take>)
    | Handle                                    // the record at the head is applied, and settled
    | Apply                                     // it is applied, but the consumer does not learn of it
    | Park                                      // it is set aside, and settled
    | Commit
    | Restart

  /** The rows published to partition p, in order. */
  function PartLog(part: string -> nat, t: Table, p: nat): seq<nat>
    decreases |t.log|
  {
    if t.log == [] then []
    else PartLog(part, t.(log := t.log[..|t.log| - 1]), p) + Tail(part, t.rows, t.log[|t.log| - 1], p)
  }

  function Tail(part: string -> nat, rows: seq<Outbox.Row<ProductChanged>>, row: nat, p: nat): seq<nat> {
    if row < |rows| && part(rows[row].key) == p then [row] else []
  }

  /** A fetch returns only what the broker has. */
  ghost predicate Available(part: string -> nat, s: Pipe, takes: seq<Consumer.Take>) {
    forall p :: Consumer.At(Consumer.Advance(s.session.pos, takes), p) <= |PartLog(part, s.table, p)|
  }

  /** The event at the head of the consumer's queue. */
  function Head(part: string -> nat, s: Pipe): Option<ProductChanged> {
    if s.session.queue == [] then None
    else
      var r := s.session.queue[0];
      var log := PartLog(part, s.table, r.partition);
      if r.offset < |log| && log[r.offset] < |s.table.rows| then Some(s.table.rows[log[r.offset]].payload) else None
  }

  ghost function Next(part: string -> nat, s: Pipe, step: Step): Pipe {
    match step
    case Change(p) => s.(table := Outbox.Next(s.table, Outbox.Write(p.id, ProductChanged(p.id, Some(p)))))
    case End(row, commits) =>
      if !commits then s.(table := Outbox.Next(s.table, Outbox.Rollback(row)))
      else if Outbox.MayCommit(s.table.rows, row) && s.table.rows[row].payload.product.Some? then
        s.(table := Outbox.Next(s.table, Outbox.Commit(row)),
           products := s.products[s.table.rows[row].key := s.table.rows[row].payload.product.value])
      else s
    case Relay(act) => if act.Write? || act.Commit? || act.Rollback? then s else s.(table := Outbox.Next(s.table, act))
    case Poll(takes) => if Available(part, s, takes) then s.(session := Consumer.Next(s.session, Consumer.Poll(takes))) else s
    case Handle =>
      var evt := Head(part, s);
      if evt == None then s else s.(docs := Applied(s.docs, evt.value), session := Consumer.Next(s.session, Consumer.Settle))
    case Apply => var evt := Head(part, s); if evt == None then s else s.(docs := Applied(s.docs, evt.value))
    case Park =>
      if s.session.queue == [] then s
      else s.(parked := s.parked + {s.session.queue[0]}, session := Consumer.Next(s.session, Consumer.Settle))
    case Commit => s.(session := Consumer.Next(s.session, Consumer.Commit))
    case Restart => s.(session := Consumer.Next(s.session, Consumer.Restart))
  }

  ghost function Run(part: string -> nat, s: Pipe, steps: seq<Step>): Pipe
    decreases |steps|
  {
    if steps == [] then s else Run(part, Next(part, s, steps[0]), steps[1..])
  }

  lemma RunTwo(part: string -> nat, s: Pipe, a: Step, b: Step)
    ensures Run(part, s, [a, b]) == Next(part, Next(part, s, a), b)
  {
    assert [a, b][1..] == [b] && [b][1..] == [];
    assert Run(part, Next(part, s, a), [b]) == Next(part, Next(part, s, a), b);
  }

  const START := Pipe(map[], Outbox.Table([], [], Outbox.Waiting), Consumer.Session(map[], map[], map[], [], {}), map[], {})

  // ---- the partition logs ------------------------------------------------------------

  /** Rows only ever gain siblings and change their visibility and marks; the log only grows. */
  ghost predicate Grew(t: Table, u: Table) {
    && |t.rows| <= |u.rows| && t.log <= u.log
    && forall i :: 0 <= i < |t.rows| ==> u.rows[i].key == t.rows[i].key && u.rows[i].payload == t.rows[i].payload
  }

  ghost predicate LogValid(t: Table) {
    forall k :: 0 <= k < |t.log| ==> t.log[k] < |t.rows|
  }

  lemma {:induction false} PartLogMembers(part: string -> nat, t: Table, p: nat)
    ensures forall j :: 0 <= j < |PartLog(part, t, p)| ==>
              PartLog(part, t, p)[j] < |t.rows| && part(t.rows[PartLog(part, t, p)[j]].key) == p
    decreases |t.log|
  {
    if t.log != [] {
      PartLogMembers(part, t.(log := t.log[..|t.log| - 1]), p);
    }
  }

  /** A partition's log only grows. */
  lemma {:induction false} PartLogGrows(part: string -> nat, t: Table, u: Table, p: nat)
    requires Grew(t, u) && LogValid(t)
    ensures PartLog(part, t, p) <= PartLog(part, u, p)
    decreases |u.log|
  {
    if |t.log| < |u.log| {
      PartLogGrows(part, t, u.(log := u.log[..|u.log| - 1]), p);
    } else {
      PartLogSame(part, t, u, p);
    }
  }

  lemma {:induction false} PartLogSame(part: string -> nat, t: Table, u: Table, p: nat)
    requires Grew(t, u) && LogValid(t) && t.log == u.log
    ensures PartLog(part, t, p) == PartLog(part, u, p)
    decreases |t.log|
  {
    var n := |t.log|;
    if n > 0 {
      PartLogSame(part, t.(log := t.log[..n - 1]), u.(log := u.log[..n - 1]), p);
    }
  }

  /** The last entry of a key on its partition is the last entry of the key in the log. */
  lemma {:induction false} LastOnPartition(part: string -> nat, t: Table, p: nat, j: nat) returns (q: nat)
    requires j < |PartLog(part, t, p)| && LogValid(t)
    requires PartLog(part, t, p)[j] < |t.rows|
    requires forall m :: j < m < |PartLog(part, t, p)| ==>
               PartLog(part, t, p)[m] < |t.rows| && t.rows[PartLog(part, t, p)[m]].key != t.rows[PartLog(part, t, p)[j]].key
    ensures q < |t.log| && t.log[q] == PartLog(part, t, p)[j]
    ensures forall m :: q < m < |t.log| ==> t.rows[t.log[m]].key != t.rows[t.log[q]].key
    decreases |t.log|
  {
    var n := |t.log| - 1;
    var v := t.(log := t.log[..n]);
    var before, log := PartLog(part, v, p), PartLog(part, t, p);
    if j == |before| {
      q := n;
    } else {
      assert forall m :: 0 <= m < |before| ==> before[m] == log[m];
      PartLogMembers(part, v, p);
      q := LastOnPartition(part, v, p, j);
      assert t.log[n] < |t.rows|;
      if part(t.rows[t.log[n]].key) == p {
        assert log[|before|] == t.log[n];
      }
    }
  }

  /** Whatever is in the log is on its key's partition. */
  lemma {:induction false} LogOnPartition(part: string -> nat, t: Table, q: nat) returns (j: nat)
    requires q < |t.log| && LogValid(t)
    ensures j < |PartLog(part, t, part(t.rows[t.log[q]].key))| && PartLog(part, t, part(t.rows[t.log[q]].key))[j] == t.log[q]
    decreases |t.log|
  {
    var n := |t.log| - 1;
    var v := t.(log := t.log[..n]);
    if q == n {
      j := |PartLog(part, v, part(t.rows[t.log[q]].key))|;
    } else {
      j := LogOnPartition(part, v, q);
    }
  }

  // ---- the catalog side ------------------------------------------------------------------

  /** The newest visible row of a key among the first n, or -1. */
  function Newest(rows: seq<Outbox.Row<ProductChanged>>, n: nat, key: string): (i: int)
    requires n <= |rows|
    ensures -1 <= i < n
    ensures i >= 0 ==> rows[i].key == key && rows[i].visibility == Outbox.Visible
    ensures forall j :: i < j < n && rows[j].key == key ==> rows[j].visibility != Outbox.Visible
  {
    if n == 0 then -1
    else if rows[n - 1].key == key && rows[n - 1].visibility == Outbox.Visible then n - 1
    else Newest(rows, n - 1, key)
  }

  /** Every row carries a snapshot of the product it is keyed by. */
  ghost predicate RowsCarrySnapshots(t: Table) {
    forall i :: 0 <= i < |t.rows| ==>
      && t.rows[i].payload.productId == t.rows[i].key
      && t.rows[i].payload.product.Some? && t.rows[i].payload.product.value.id == t.rows[i].key
  }

  type Rows = seq<Outbox.Row<ProductChanged>>

  /** The product table holds the product as its newest visible row describes it. */
  ghost predicate Current(products: map<string, Product>, rows: Rows, key: string) {
    var i := Newest(rows, |rows|, key);
    if i < 0 then key !in products else key in products && rows[i].payload.product == Some(products[key])
  }

  ghost predicate ProductsCurrent(s: Pipe) {
    forall key :: Current(s.products, s.table.rows, key)
  }

  // ---- the index side ----------------------------------------------------------------------

  ghost predicate Shows(docs: map<string, Doc>, key: string, product: Product) {
    if product.status == Active then key in docs && docs[key] == DocOf(product) else key !in docs
  }

  /**
   The index shows key as entry j of its partition left it (as nothing left it, if j is -1), and every later
   entry of the key that is behind the consumer was parked.
   */
  ghost predicate Reflects(part: string -> nat, s: Pipe, key: string, j: int) {
    var p := part(key);
    var log := PartLog(part, s.table, p);
    && -1 <= j < |log|
    && (j == -1 ==> key !in s.docs)
    && (j >= 0 ==>
          && log[j] < |s.table.rows| && s.table.rows[log[j]].key == key
          && s.table.rows[log[j]].payload.product.Some? && Shows(s.docs, key, s.table.rows[log[j]].payload.product.value))
    && forall m :: j < m < |log| && m < Consumer.At(s.session.done, p) && log[m] < |s.table.rows| && s.table.rows[log[m]].key == key ==>
         Consumer.Record(p, m) in s.parked
  }

  ghost predicate Tracked(part: string -> nat, s: Pipe, key: string) {
    exists j :: Reflects(part, s, key, j)
  }

  ghost predicate IndexTracks(part: string -> nat, s: Pipe) {
    forall key :: Tracked(part, s, key)
  }

  /** The client never polls past the log. */
  ghost predicate Bounded(part: string -> nat, s: Pipe) {
    forall p :: Consumer.At(s.session.pos, p) <= |PartLog(part, s.table, p)|
  }

  ghost predicate Inv(part: string -> nat, s: Pipe) {
    && Outbox.RelayInv(s.table) && RowsCarrySnapshots(s.table) && ProductsCurrent(s)
    && Consumer.SessionOk(s.session) && Bounded(part, s) && IndexTracks(part, s)
  }

  // ---- steps of the table ---------------------------------------------------------------------

  lemma TableStepKeepsIndex(part: string -> nat, s: Pipe, u: Pipe)
    requires Inv(part, s) && Grew(s.table, u.table)
    requires u.session == s.session && u.docs == s.docs && u.parked == s.parked
    ensures Bounded(part, u) && IndexTracks(part, u)
  {
    assert LogValid(s.table);
    forall p ensures PartLog(part, s.table, p) <= PartLog(part, u.table, p) {
      PartLogGrows(part, s.table, u.table, p);
    }
    forall key ensures Tracked(part, u, key) {
      assert Tracked(part, s, key);
      var j :| Reflects(part, s, key, j);
      CarryReflects(part, s, u, key, j);
    }
  }

  lemma CarryReflects(part: string -> nat, s: Pipe, u: Pipe, key: string, j: int)
    requires Inv(part, s) && Grew(s.table, u.table) && Reflects(part, s, key, j)
    requires u.session == s.session && u.docs == s.docs && u.parked == s.parked
    ensures Reflects(part, u, key, j)
  {
    var p := part(key);
    PartLogGrows(part, s.table, u.table, p);
    var before, after := PartLog(part, s.table, p), PartLog(part, u.table, p);
    assert Consumer.At(s.session.done, p) <= |before| by {
      Consumer.DoneWithinPos(s.session.queue, s.session.done, s.session.pos, p);
    }
    forall m | j < m < |after| && m < Consumer.At(u.session.done, p) && after[m] < |u.table.rows| && u.table.rows[after[m]].key == key
      ensures Consumer.Record(p, m) in u.parked
    {
      assert before[m] == after[m];
      PartLogMembers(part, s.table, p);
    }
  }

  /** Rows not visible before that stay so do not show. */
  lemma SameNewest(a: Rows, b: Rows, key: string)
    requires |a| <= |b|
    requires forall i :: 0 <= i < |a| ==> b[i].key == a[i].key && b[i].payload == a[i].payload
    requires forall i :: 0 <= i < |a| && a[i].key == key ==> (b[i].visibility == Outbox.Visible <==> a[i].visibility == Outbox.Visible)
    requires forall i :: |a| <= i < |b| ==> b[i].visibility != Outbox.Visible
    ensures Newest(a, |a|, key) == Newest(b, |b|, key)
    ensures forall products :: Current(products, a, key) ==> Current(products, b, key)
  {
    var i, j := Newest(a, |a|, key), Newest(b, |b|, key);
    if i >= 0 {
      assert b[i].key == key && b[i].visibility == Outbox.Visible;
    }
    if j >= 0 {
      assert j < |a| && a[j].key == key;
    }
  }

  /** No relay step, and no insert or rollback, changes what is visible. */
  lemma QuietStepKeepsProducts(s: Pipe, act: Outbox.Act<ProductChanged>)
    requires ProductsCurrent(s) && !act.Commit?
    ensures ProductsCurrent(s.(table := Outbox.Next(s.table, act)))
  {
    var u := s.(table := Outbox.Next(s.table, act));
    forall key ensures Current(u.products, u.table.rows, key) {
      assert Current(s.products, s.table.rows, key);
      SameNewest(s.table.rows, u.table.rows, key);
    }
  }

  /** A committed row is its key's newest: later rows of the key are still waiting for it. */
  lemma CommitKeepsProducts(part: string -> nat, s: Pipe, row: nat)
    requires Outbox.KeyOrdered(s.table) && ProductsCurrent(s)
    ensures ProductsCurrent(Next(part, s, End(row, true)))
  {
    var u := Next(part, s, End(row, true));
    var a, b := s.table.rows, u.table.rows;
    if u != s {
      forall key ensures Current(u.products, b, key) {
        assert Current(s.products, a, key);
        if key == a[row].key {
          forall j | row < j < |b| && b[j].key == key ensures b[j].visibility != Outbox.Visible {
            assert Outbox.SameKey(s.table, row, j);
          }
          assert b[row].key == key && b[row].visibility == Outbox.Visible;
          var i := Newest(b, |b|, key);
          assert i >= row && b[i].visibility == Outbox.Visible;
        } else {
          SameNewest(a, b, key);
        }
      }
    }
  }

  lemma ChangeKeeps(part: string -> nat, s: Pipe, p: Product)
    requires Inv(part, s)
    ensures Inv(part, Next(part, s, Change(p)))
  {
    var act := Outbox.Write(p.id, ProductChanged(p.id, Some(p)));
    OutboxSafety.NextKeeps(s.table, act);
    QuietStepKeepsProducts(s, act);
    TableStepKeepsIndex(part, s, Next(part, s, Change(p)));
  }

  lemma EndKeeps(part: string -> nat, s: Pipe, row: nat, commits: bool)
    requires Inv(part, s)
    ensures Inv(part, Next(part, s, End(row, commits)))
  {
    if commits {
      OutboxSafety.NextKeeps(s.table, Outbox.Commit(row));
      CommitKeepsProducts(part, s, row);
    } else {
      OutboxSafety.NextKeeps(s.table, Outbox.Rollback(row));
      QuietStepKeepsProducts(s, Outbox.Rollback(row));
    }
    TableStepKeepsIndex(part, s, Next(part, s, End(row, commits)));
  }

  lemma RelayKeeps(part: string -> nat, s: Pipe, act: Outbox.Act<ProductChanged>)
    requires Inv(part, s)
    ensures Inv(part, Next(part, s, Relay(act)))
  {
    var u := Next(part, s, Relay(act));
    if u != s {
      OutboxSafety.NextKeeps(s.table, act);
      QuietStepKeepsProducts(s, act);
      TableStepKeepsIndex(part, s, u);
    }
  }

  // ---- steps of the consumer ----------------------------------------------------------------

  /** The consumer's own act behind a step, if it does anything to the session. */
  function SessionAct(step: Step): Option<Consumer.Act> {
    match step
    case Poll(takes) => Some(Consumer.Poll(takes))
    case Handle => Some(Consumer.Settle)
    case Park => Some(Consumer.Settle)
    case Commit => Some(Consumer.Commit)
    case Restart => Some(Consumer.Restart)
    case _ => None
  }

  lemma SessionFollows(part: string -> nat, s: Pipe, step: Step)
    ensures Next(part, s, step).session == s.session
            || (SessionAct(step).Some? && Next(part, s, step).session == Consumer.Next(s.session, SessionAct(step).value))
  {
  }

  lemma SessionStepKeepsOk(part: string -> nat, s: Pipe, step: Step)
    requires Consumer.SessionOk(s.session)
    ensures Consumer.SessionOk(Next(part, s, step).session)
  {
    SessionFollows(part, s, step);
    if SessionAct(step).Some? {
      Consumer.NextKeepsOk(s.session, SessionAct(step).value);
    }
  }

  /** A poll takes no more than there is, and a restart falls back. */
  lemma SessionStepKeepsBounds(part: string -> nat, s: Pipe, step: Step)
    requires Consumer.SessionOk(s.session) && Bounded(part, s) && !step.Change? && !step.End? && !step.Relay?
    ensures Bounded(part, Next(part, s, step))
  {
    var u := Next(part, s, step);
    forall p ensures Consumer.At(u.session.pos, p) <= |PartLog(part, u.table, p)| {
      assert Consumer.At(s.session.pos, p) <= |PartLog(part, s.table, p)|;
      if step == Restart {
        Consumer.DoneWithinPos(s.session.queue, s.session.done, s.session.pos, p);
      }
    }
  }

  /** Falling back, or standing still, leaves less to account for. */
  lemma LookingBackKeepsIndex(part: string -> nat, s: Pipe, u: Pipe)
    requires IndexTracks(part, s) && u.table == s.table && u.docs == s.docs && u.parked == s.parked
    requires forall p :: Consumer.At(u.session.done, p) <= Consumer.At(s.session.done, p)
    ensures IndexTracks(part, u)
  {
    forall key ensures Tracked(part, u, key) {
      assert Tracked(part, s, key);
      var j :| Reflects(part, s, key, j);
      assert Reflects(part, u, key, j);
    }
  }

  /** The head of the queue is a log entry the consumer has not settled, and the event is that entry's. */
  lemma HeadIs(part: string -> nat, s: Pipe)
    requires Inv(part, s) && s.session.queue != []
    ensures var r := s.session.queue[0];
            var log := PartLog(part, s.table, r.partition);
            && r.offset == Consumer.At(s.session.done, r.partition) && r.offset < |log| && log[r.offset] < |s.table.rows|
            && part(s.table.rows[log[r.offset]].key) == r.partition
            && Head(part, s) == Some(s.table.rows[log[r.offset]].payload)
            && s.table.rows[log[r.offset]].payload.product.Some?
            && s.table.rows[log[r.offset]].payload.product.value.id == s.table.rows[log[r.offset]].key
            && s.table.rows[log[r.offset]].payload.productId == s.table.rows[log[r.offset]].key
  {
    var r := s.session.queue[0];
    Consumer.DoneWithinPos(s.session.queue, s.session.done, s.session.pos, r.partition);
    assert Consumer.At(s.session.pos, r.partition) <= |PartLog(part, s.table, r.partition)|;
    PartLogMembers(part, s.table, r.partition);
  }

  /** A key stays reflected while its document does not move and every entry of it passed over is parked. */
  lemma StaysReflected(part: string -> nat, s: Pipe, u: Pipe, key: string)
    requires Tracked(part, s, key) && u.table == s.table && s.parked <= u.parked
    requires (key in u.docs <==> key in s.docs) && (key in s.docs ==> u.docs[key] == s.docs[key])
    requires var log := PartLog(part, s.table, part(key));
             forall m :: Consumer.At(s.session.done, part(key)) <= m < Consumer.At(u.session.done, part(key)) && m < |log|
                         && log[m] < |s.table.rows| && s.table.rows[log[m]].key == key ==>
               Consumer.Record(part(key), m) in u.parked
    ensures Tracked(part, u, key)
  {
    var j :| Reflects(part, s, key, j);
    assert Reflects(part, u, key, j);
  }

  /** Settling the head moves only its partition, by one. */
  lemma SettleMovesDone(part: string -> nat, s: Pipe, u: Pipe, p: nat)
    requires Inv(part, s) && s.session.queue != [] && u.session == Consumer.Next(s.session, Consumer.Settle)
    ensures Consumer.At(u.session.done, p) ==
            Consumer.At(s.session.done, p) + (if p == s.session.queue[0].partition then 1 else 0)
  {
    assert s.session.queue[0].offset == Consumer.At(s.session.done, s.session.queue[0].partition);
  }

  /** Applying the head makes its key show it. */
  lemma HeadReflected(part: string -> nat, s: Pipe, step: Step, key: string)
    requires Inv(part, s) && s.session.queue != [] && (step.Handle? || step.Apply?)
    requires Head(part, s) != None && Head(part, s).value.productId == key
    ensures Tracked(part, Next(part, s, step), key)
  {
    var u := Next(part, s, step);
    HeadIs(part, s);
    if step == Handle {
      SettleMovesDone(part, s, u, part(key));
    }
    assert Reflects(part, u, key, s.session.queue[0].offset);
  }

  /** Passing record r over leaves a key tracked if r is another key's, or was parked. */
  lemma PassedOver(part: string -> nat, s: Pipe, u: Pipe, key: string, r: Record)
    requires Tracked(part, s, key) && u.table == s.table && s.parked <= u.parked
    requires (key in u.docs <==> key in s.docs) && (key in s.docs ==> u.docs[key] == s.docs[key])
    requires r.offset == Consumer.At(s.session.done, r.partition)
    requires Consumer.At(u.session.done, part(key)) <=
             Consumer.At(s.session.done, part(key)) + (if part(key) == r.partition then 1 else 0)
    requires r.offset < |PartLog(part, s.table, r.partition)| && PartLog(part, s.table, r.partition)[r.offset] < |s.table.rows|
    requires s.table.rows[PartLog(part, s.table, r.partition)[r.offset]].key != key || r in u.parked
    ensures Tracked(part, u, key)
  {
    StaysReflected(part, s, u, key);
  }

  lemma OthersStay(part: string -> nat, s: Pipe, step: Step, key: string)
    requires Inv(part, s) && s.session.queue != [] && Head(part, s) != None
    requires step.Park? || ((step.Handle? || step.Apply?) && key != Head(part, s).value.productId)
    ensures Tracked(part, Next(part, s, step), key)
  {
    var u := Next(part, s, step);
    HeadIs(part, s);
    assert Tracked(part, s, key);
    if step != Apply {
      SettleMovesDone(part, s, u, part(key));
    }
    PassedOver(part, s, u, key, s.session.queue[0]);
  }

  /** It leaves every other key alone. */
  lemma ApplyingKeepsKey(part: string -> nat, s: Pipe, step: Step, key: string)
    requires Inv(part, s) && s.session.queue != [] && (step.Handle? || step.Apply?)
    ensures Tracked(part, Next(part, s, step), key)
  {
    HeadIs(part, s);
    if key == Head(part, s).value.productId {
      HeadReflected(part, s, step, key);
    } else {
      OthersStay(part, s, step, key);
    }
  }

  lemma ApplyingKeepsIndex(part: string -> nat, s: Pipe, step: Step)
    requires Inv(part, s) && s.session.queue != [] && (step.Handle? || step.Apply?)
    ensures IndexTracks(part, Next(part, s, step))
  {
    forall key ensures Tracked(part, Next(part, s, step), key) {
      ApplyingKeepsKey(part, s, step, key);
    }
  }

  lemma ParkingKeepsIndex(part: string -> nat, s: Pipe)
    requires Inv(part, s) && s.session.queue != []
    ensures IndexTracks(part, Next(part, s, Park))
  {
    forall key ensures Tracked(part, Next(part, s, Park), key) {
      HeadIs(part, s);
      OthersStay(part, s, Park, key);
    }
  }

  lemma SameTableKeeps(s: Pipe, u: Pipe)
    requires ProductsCurrent(s) && u.table == s.table && u.products == s.products
    ensures ProductsCurrent(u)
  {
    forall key ensures Current(u.products, u.table.rows, key) {
      assert Current(s.products, s.table.rows, key);
    }
  }

  lemma ConsumerStepKeeps(part: string -> nat, s: Pipe, step: Step)
    requires Inv(part, s) && !step.Change? && !step.End? && !step.Relay?
    ensures Inv(part, Next(part, s, step))
  {
    var u := Next(part, s, step);
    SameTableKeeps(s, u);
    SessionStepKeepsOk(part, s, step);
    SessionStepKeepsBounds(part, s, step);
    if s.session.queue != [] && (step.Handle? || step.Apply?) {
      ApplyingKeepsIndex(part, s, step);
    } else if s.session.queue != [] && step == Park {
      ParkingKeepsIndex(part, s);
    } else {
      LookingBackKeepsIndex(part, s, u);
    }
  }

  lemma NextKeeps(part: string -> nat, s: Pipe, step: Step)
    requires Inv(part, s)
    ensures Inv(part, Next(part, s, step))
  {
    match step {
      case Change(p) => ChangeKeeps(part, s, p);
      case End(row, commits) => EndKeeps(part, s, row, commits);
      case Relay(act) => RelayKeeps(part, s, act);
      case _ => ConsumerStepKeeps(part, s, step);
    }
  }

  lemma StartOk(part: string -> nat)
    ensures Inv(part, START)
  {
    OutboxSafety.EmptyTable<ProductChanged>();
    Consumer.FreshSession();
    forall key ensures Tracked(part, START, key) && Current(START.products, START.table.rows, key) {
      assert Reflects(part, START, key, -1);
    }
  }

  lemma {:induction false} RunKeeps(part: string -> nat, s: Pipe, steps: seq<Step>)
    requires Inv(part, s)
    ensures Inv(part, Run(part, s, steps))
    decreases |steps|
  {
    if steps != [] {
      NextKeeps(part, s, steps[0]);
      RunKeeps(part, Next(part, s, steps[0]), steps[1..]);
    }
  }

  // ---- convergence ------------------------------------------------------------------------------

  ghost predicate CaughtUp(part: string -> nat, s: Pipe) {
    && OutboxSafety.AllMarked(s.table) && s.session.queue == []
    && forall p :: Consumer.At(s.session.pos, p) == |PartLog(part, s.table, p)|
  }

  /** The last log entry of the key, if it has any, was not parked. */
  ghost predicate LastNotParked(part: string -> nat, s: Pipe, key: string) {
    forall m :: 0 <= m < |PartLog(part, s.table, part(key))| && IsLast(part, s, key, m) ==>
      Consumer.Record(part(key), m) !in s.parked
  }

  ghost predicate IsLast(part: string -> nat, s: Pipe, key: string, m: int) {
    var log := PartLog(part, s.table, part(key));
    && 0 <= m < |log| && log[m] < |s.table.rows| && s.table.rows[log[m]].key == key
    && forall n :: m < n < |log| && log[n] < |s.table.rows| ==> s.table.rows[log[n]].key != key
  }

  /** A key with an entry has a last one. */
  lemma {:induction false} HasLast(part: string -> nat, s: Pipe, key: string, from: nat) returns (m: nat)
    requires var log := PartLog(part, s.table, part(key));
             from < |log| && log[from] < |s.table.rows| && s.table.rows[log[from]].key == key
    ensures m >= from && IsLast(part, s, key, m)
    decreases |PartLog(part, s.table, part(key))| - from
  {
    var log := PartLog(part, s.table, part(key));
    if n :| from < n < |log| && log[n] < |s.table.rows| && s.table.rows[log[n]].key == key {
      m := HasLast(part, s, key, n);
    } else {
      m := from;
    }
  }

  /** Caught up, the index shows a key as its last log entry says, unless that one was parked. */
  lemma ShowsLast(part: string -> nat, s: Pipe, key: string, m: nat)
    requires Inv(part, s) && CaughtUp(part, s) && IsLast(part, s, key, m) && LastNotParked(part, s, key)
    ensures var row := s.table.rows[PartLog(part, s.table, part(key))[m]];
            row.payload.product.Some? && Shows(s.docs, key, row.payload.product.value)
  {
    assert Tracked(part, s, key);
    assert Consumer.At(s.session.done, part(key)) == Consumer.At(s.session.pos, part(key));
    assert Consumer.At(s.session.pos, part(key)) == |PartLog(part, s.table, part(key))|;
    ReflectsLast(part, s, key, m);
  }

  /** Nothing of the key is left to pass, so what the index reflects is the last entry. */
  lemma ReflectsLast(part: string -> nat, s: Pipe, key: string, m: nat)
    requires Tracked(part, s, key) && IsLast(part, s, key, m)
    requires Consumer.At(s.session.done, part(key)) >= |PartLog(part, s.table, part(key))|
    requires Consumer.Record(part(key), m) !in s.parked
    ensures var row := s.table.rows[PartLog(part, s.table, part(key))[m]];
            row.payload.product.Some? && Shows(s.docs, key, row.payload.product.value)
  {
    var j :| Reflects(part, s, key, j);
  }

  /** With every visible row marked, a key's last log entry is its newest visible row. */
  lemma LastIsNewest(part: string -> nat, s: Pipe, key: string, m: nat)
    requires Inv(part, s) && OutboxSafety.AllMarked(s.table) && IsLast(part, s, key, m)
    ensures PartLog(part, s.table, part(key))[m] == Newest(s.table.rows, |s.table.rows|, key)
  {
    var log := PartLog(part, s.table, part(key));
    PartLogMembers(part, s.table, part(key));
    var q := LastOnPartition(part, s.table, part(key), m);
    assert Outbox.LastOf(s.table, q);
    var i := Newest(s.table.rows, |s.table.rows|, key);
    assert s.table.rows[log[m]].visibility == Outbox.Visible;
    assert i >= log[m];
    OutboxSafety.LastIsNewest(s.table, q, i);
  }

  /** A key with a visible row has a log entry once everything is marked. */
  lemma EntryOf(part: string -> nat, s: Pipe, key: string) returns (m: nat)
    requires Inv(part, s) && OutboxSafety.AllMarked(s.table) && Newest(s.table.rows, |s.table.rows|, key) >= 0
    ensures IsLast(part, s, key, m)
  {
    var i := Newest(s.table.rows, |s.table.rows|, key);
    assert !Outbox.Unsent(s.table.rows, i);
    assert i in s.table.log;
    var q :| 0 <= q < |s.table.log| && s.table.log[q] == i;
    var j := LogOnPartition(part, s.table, q);
    m := HasLast(part, s, key, j);
  }

  /** A key without a visible row was never published. */
  lemma NoEntry(part: string -> nat, s: Pipe, key: string, j: nat)
    requires Inv(part, s) && Newest(s.table.rows, |s.table.rows|, key) < 0
    requires j < |PartLog(part, s.table, part(key))|
    ensures PartLog(part, s.table, part(key))[j] < |s.table.rows| && s.table.rows[PartLog(part, s.table, part(key))[j]].key != key
  {
    PartLogMembers(part, s.table, part(key));
    EntryInLog(part, s.table, part(key), j);
  }

  lemma {:induction false} EntryInLog(part: string -> nat, t: Table, p: nat, j: nat)
    requires j < |PartLog(part, t, p)|
    ensures PartLog(part, t, p)[j] in t.log
    decreases |t.log|
  {
    var v := t.(log := t.log[..|t.log| - 1]);
    if j < |PartLog(part, v, p)| {
      EntryInLog(part, v, p, j);
    }
  }

  /**
   Once every row is marked and the consumer has caught up, each key whose last record was not parked shows
   in the index exactly as the product table has it.
   */
  lemma KeyConverges(part: string -> nat, s: Pipe, key: string)
    requires Inv(part, s) && CaughtUp(part, s) && LastNotParked(part, s, key)
    ensures key in s.docs <==> key in s.products && s.products[key].status == Active
    ensures key in s.docs ==> s.docs[key] == DocOf(s.products[key])
  {
    assert Current(s.products, s.table.rows, key);
    if Newest(s.table.rows, |s.table.rows|, key) >= 0 {
      var m := EntryOf(part, s, key);
      ShowsLast(part, s, key, m);
      LastIsNewest(part, s, key, m);
    } else {
      assert Tracked(part, s, key);
      var j :| Reflects(part, s, key, j);
      if j >= 0 {
        NoEntry(part, s, key, j);
      }
    }
  }

  /**
   For any run with any pattern of publish failures, mark failures, crashes and restarts: once every outbox row
   is marked, the consumer has caught up and nothing was parked, the index holds exactly the active products,
   each at its latest snapshot.
   */
  lemma IndexConverges(part: string -> nat, steps: seq<Step>)
    requires CaughtUp(part, Run(part, START, steps)) && Run(part, START, steps).parked == {}
    ensures Run(part, START, steps).docs == Wanted(Run(part, START, steps).products)
  {
    var s := Run(part, START, steps);
    StartOk(part);
    RunKeeps(part, START, steps);
    forall key ensures (key in s.docs <==> key in Wanted(s.products))
                       && (key in s.docs ==> s.docs[key] == Wanted(s.products)[key])
    {
      KeyConverges(part, s, key);
    }
  }
}
