/** The relay's guarantees over every run: whatever is written, fails, or crashes in between. */
module OutboxSafety {
  import opened Outbox

  // ---- writers ------------------------------------------------------------------

  /** u grew out of t by a writer's step: rows keep their keys and marks, and none stops being visible. */
  ghost predicate Written<T>(t: Table<T>, u: Table<T>) {
    && |t.rows| <= |u.rows| && u.log == t.log && u.relay == t.relay
    && (forall i :: 0 <= i < |t.rows| ==>
          && u.rows[i].key == t.rows[i].key && u.rows[i].marked == t.rows[i].marked
          && (t.rows[i].visibility != Pending ==> u.rows[i].visibility == t.rows[i].visibility))
    && (forall i :: |t.rows| <= i < |u.rows| ==> u.rows[i].visibility == Pending && !u.rows[i].marked)
  }

  /** A row below a visible sibling was settled already, so a writer's step leaves it as it was. */
  lemma BelowVisible<T>(t: Table<T>, u: Table<T>, i: int, j: int)
    requires Written(t, u) && KeyOrdered(t)
    requires 0 <= i < j < |t.rows| && SameKey(t, i, j) && t.rows[j].visibility == Visible
    ensures u.rows[i].visibility == t.rows[i].visibility && (Unsent(u.rows, i) <==> Unsent(t.rows, i))
  {
  }

  lemma WritingKeepsOrder<T>(t: Table<T>, act: Act<T>)
    requires KeyOrdered(t) && (act.Write? || act.Commit? || act.Rollback?)
    ensures Written(t, Next(t, act)) && KeyOrdered(Next(t, act))
  {
    var u := Next(t, act);
    forall i, j | 0 <= i < j && SameKey(u, i, j) && u.rows[j].visibility == Visible
      ensures u.rows[i].visibility != Pending
    {
      assert SameKey(t, i, j);
    }
  }

  lemma WrittenKeepsMarks<T>(t: Table<T>, u: Table<T>)
    requires Written(t, u) && LogTrue(t) && KeyOrdered(t) && MarkedPrefix(t)
    ensures LogTrue(u) && MarkedPrefix(u)
  {
    forall i, j | 0 <= i < j && SameKey(u, i, j) && u.rows[i].visibility == Visible && u.rows[j].marked
      ensures u.rows[i].marked
    {
      assert SameKey(t, i, j) && j in t.log;
      BelowVisible(t, u, i, j);
    }
  }

  lemma WrittenKeepsFirsts<T>(t: Table<T>, u: Table<T>)
    requires Written(t, u) && LogTrue(t) && KeyOrdered(t) && FirstsInOrder(t)
    ensures FirstsInOrder(u)
  {
    forall k, i | 0 <= k < |u.log| && 0 <= i < u.log[k] && SameKey(u, i, u.log[k]) && u.rows[i].visibility == Visible
      ensures i in u.log[..k]
    {
      assert SameKey(t, i, t.log[k]);
      BelowVisible(t, u, i, t.log[k]);
    }
  }

  lemma WrittenKeepsLast<T>(t: Table<T>, u: Table<T>)
    requires Written(t, u) && LogTrue(t) && LastCoversMarks(t)
    ensures LastCoversMarks(u)
  {
    forall k, j | LastOf(u, k) && SameKey(u, u.log[k], j) && u.rows[j].marked ensures j <= u.log[k] {
      assert SameKey(t, t.log[k], j);
      assert LastOf(t, k) by {
        forall m | k < m < |t.log| ensures !SameKey(t, t.log[m], t.log[k]) {
          assert !SameKey(u, u.log[m], u.log[k]);
        }
      }
    }
  }

  lemma WrittenKeepsBatch<T>(t: Table<T>, u: Table<T>)
    requires Written(t, u) && KeyOrdered(t) && BatchOk(t)
    ensures BatchOk(u)
  {
    if t.relay.Sending? {
      var b := t.relay.batch;
      forall k | 0 <= k < |b| ensures Unsent(u.rows, b[k]) {
        assert Unsent(t.rows, b[k]);
      }
      forall k, i | 0 <= k < |b| && 0 <= i < b[k] && SameKey(u, i, b[k]) && Unsent(u.rows, i) ensures i in b[..k] {
        assert Unsent(t.rows, b[k]) && SameKey(t, i, b[k]);
        BelowVisible(t, u, i, b[k]);
      }
    }
  }

  lemma WritingKeeps<T>(t: Table<T>, act: Act<T>)
    requires RelayInv(t) && (act.Write? || act.Commit? || act.Rollback?)
    ensures RelayInv(Next(t, act))
  {
    var u := Next(t, act);
    WritingKeepsOrder(t, act);
    WrittenKeepsMarks(t, u);
    WrittenKeepsFirsts(t, u);
    WrittenKeepsLast(t, u);
    WrittenKeepsBatch(t, u);
  }

  // ---- the relay --------------------------------------------------------------------

  /** Everything but the batch depends on rows and log alone. */
  lemma CarryOver<T>(t: Table<T>, u: Table<T>)
    requires RelayInv(t) && u.rows == t.rows && u.log == t.log
    ensures LogTrue(u) && KeyOrdered(u) && MarkedPrefix(u) && FirstsInOrder(u) && LastCoversMarks(u)
  {
    assert forall i, j :: SameKey(u, i, j) <==> SameKey(t, i, j);
    WrittenKeepsLast(t, u.(relay := t.relay));
    assert forall k :: LastOf(u, k) ==> LastOf(u.(relay := t.relay), k);
  }

  lemma FetchKeeps<T>(t: Table<T>, limit: nat)
    requires RelayInv(t)
    ensures RelayInv(Next(t, Fetch(limit)))
  {
    FirstUnsentMeaning(t.rows, 0, limit);
    CarryOver(t, Next(t, Fetch(limit)));
  }

  lemma EndBatchKeeps<T>(t: Table<T>, act: Act<T>)
    requires RelayInv(t) && (act.GiveUp? || act.Drop?)
    ensures RelayInv(Next(t, act))
  {
    var u := Next(t, act);
    CarryOver(t, u);
    if act.GiveUp? && t.relay.Sending? {
      var b, s := t.relay.batch, t.relay.sent;
      assert b[..s][..s] == b[..s];
      forall k, i | 0 <= k < s && 0 <= i < b[k] && SameKey(u, i, b[k]) && Unsent(u.rows, i) ensures i in b[..s][..k] {
        assert SameKey(t, i, b[k]);
        assert b[..s][..k] == b[..k];
      }
    }
  }

  /** When a row is about to be published, its smaller visible siblings already are. */
  lemma SiblingsOut<T>(t: Table<T>, i: nat)
    requires RelayInv(t) && t.relay.Sending? && t.relay.sent < |t.relay.batch|
    requires i < t.relay.batch[t.relay.sent] && SameKey(t, i, t.relay.batch[t.relay.sent])
    requires t.rows[i].visibility == Visible
    ensures i in t.log
  {
    var b, s := t.relay.batch, t.relay.sent;
    if !t.rows[i].marked {
      assert Unsent(t.rows, i);
      assert i in b[..s];
      assert i in t.log[|t.log| - s..];
    }
  }

  lemma PublishKeepsFirsts<T>(t: Table<T>)
    requires RelayInv(t)
    ensures FirstsInOrder(Next(t, Publish))
  {
    var u := Next(t, Publish);
    if u != t {
      forall k, i | 0 <= k < |u.log| && 0 <= i < u.log[k] && SameKey(u, i, u.log[k]) && u.rows[i].visibility == Visible
        ensures i in u.log[..k]
      {
        assert SameKey(t, i, u.log[k]);
        if k < |t.log| {
          assert u.log[..k] == t.log[..k];
        } else {
          assert u.log[..k] == t.log;
          SiblingsOut(t, i);
        }
      }
    }
  }

  lemma PublishKeepsLast<T>(t: Table<T>)
    requires RelayInv(t)
    ensures LastCoversMarks(Next(t, Publish))
  {
    var u := Next(t, Publish);
    if u != t {
      var r := t.relay.batch[t.relay.sent];
      assert Unsent(t.rows, r);
      forall k, j | LastOf(u, k) && SameKey(u, u.log[k], j) && u.rows[j].marked ensures j <= u.log[k] {
        assert SameKey(t, u.log[k], j);
        if k < |t.log| {
          assert LastOf(t, k) by {
            forall m | k < m < |t.log| ensures !SameKey(t, t.log[m], t.log[k]) {
              assert !SameKey(u, u.log[m], u.log[k]);
            }
          }
        }
      }
    }
  }

  lemma PublishKeepsMarks<T>(t: Table<T>)
    requires LogTrue(t) && KeyOrdered(t) && MarkedPrefix(t) && BatchOk(t)
    ensures LogTrue(Next(t, Publish)) && KeyOrdered(Next(t, Publish)) && MarkedPrefix(Next(t, Publish))
  {
    var u := Next(t, Publish);
    assert forall i, j :: SameKey(u, i, j) <==> SameKey(t, i, j);
    if u != t {
      assert Unsent(t.rows, t.relay.batch[t.relay.sent]);
      assert forall i :: i in t.log ==> i in u.log;
    }
  }

  lemma PublishKeepsBatch<T>(t: Table<T>)
    requires BatchOk(t)
    ensures BatchOk(Next(t, Publish))
  {
    var u := Next(t, Publish);
    if u != t {
      var b, s := t.relay.batch, t.relay.sent;
      assert u.log[|u.log| - (s + 1)..] == t.log[|t.log| - s..] + [b[s]];
      assert b[..s + 1] == b[..s] + [b[s]];
      assert forall i, j :: SameKey(u, i, j) <==> SameKey(t, i, j);
    }
  }

  lemma PublishKeeps<T>(t: Table<T>)
    requires RelayInv(t)
    ensures RelayInv(Next(t, Publish))
  {
    PublishKeepsMarks(t);
    PublishKeepsFirsts(t);
    PublishKeepsLast(t);
    PublishKeepsBatch(t);
  }

  /** Marking changes nothing but marks. */
  lemma MarkOnlyMarks<T>(t: Table<T>)
    ensures var u := Next(t, Mark);
            && |u.rows| == |t.rows| && u.log == t.log
            && forall i :: 0 <= i < |t.rows| ==> u.rows[i].key == t.rows[i].key && u.rows[i].visibility == t.rows[i].visibility
  {
  }

  lemma MarkKeepsKeyOrdered<T>(t: Table<T>)
    requires KeyOrdered(t)
    ensures KeyOrdered(Next(t, Mark))
  {
    var u := Next(t, Mark);
    MarkOnlyMarks(t);
    forall i, j | 0 <= i < j && SameKey(u, i, j) && u.rows[j].visibility == Visible ensures u.rows[i].visibility != Pending {
      assert SameKey(t, i, j);
    }
  }

  lemma MarkKeepsLogTrue<T>(t: Table<T>)
    requires LogTrue(t) && BatchOk(t)
    ensures LogTrue(Next(t, Mark))
  {
    var u := Next(t, Mark);
    MarkOnlyMarks(t);
    if u != t {
      var b := t.relay.batch;
      forall i | 0 <= i < |u.rows| && u.rows[i].marked ensures i in u.log {
        if !t.rows[i].marked {
          var q :| 0 <= q < |b| && b[q] == i;
          TailIs(t, q);
        }
      }
    }
  }

  lemma MarkKeepsPrefix<T>(t: Table<T>)
    requires MarkedPrefix(t) && BatchOk(t)
    ensures MarkedPrefix(Next(t, Mark))
  {
    var u := Next(t, Mark);
    MarkOnlyMarks(t);
    if u != t {
      var b := t.relay.batch;
      forall i, j | 0 <= i < j && SameKey(u, i, j) && u.rows[i].visibility == Visible && u.rows[j].marked
        ensures u.rows[i].marked
      {
        assert SameKey(t, i, j);
        if !t.rows[j].marked && !t.rows[i].marked {
          var k :| 0 <= k < |b| && b[k] == j;
          assert Unsent(t.rows, i);
          assert i in b[..k];
        }
      }
    }
  }

  lemma MarkKeepsOrder<T>(t: Table<T>)
    requires RelayInv(t)
    ensures FirstsInOrder(Next(t, Mark)) && LastCoversMarks(Next(t, Mark))
  {
    var u := Next(t, Mark);
    if u != t {
      forall k, i | 0 <= k < |u.log| && 0 <= i < u.log[k] && SameKey(u, i, u.log[k]) && u.rows[i].visibility == Visible
        ensures i in u.log[..k]
      {
        assert SameKey(t, i, t.log[k]);
      }
      forall k, j | LastOf(u, k) && SameKey(u, u.log[k], j) && u.rows[j].marked ensures j <= u.log[k] {
        assert SameKey(t, t.log[k], j);
        assert LastOf(t, k) by {
          forall m | k < m < |t.log| ensures !SameKey(t, t.log[m], t.log[k]) {
            assert !SameKey(u, u.log[m], u.log[k]);
          }
        }
        MarkCovered(t, k, j);
      }
    }
  }

  /** A newly marked row was published in the log's tail, which ascends. */
  lemma MarkCovered<T>(t: Table<T>, k: nat, j: nat)
    requires BatchOk(t) && LastCoversMarks(t) && t.relay.Sending? && t.relay.sent == |t.relay.batch|
    requires LastOf(t, k) && SameKey(t, t.log[k], j) && (t.rows[j].marked || j in t.relay.batch)
    ensures j <= t.log[k]
  {
    if !t.rows[j].marked {
      var b := t.relay.batch;
      var base := |t.log| - |b|;
      var q :| 0 <= q < |b| && b[q] == j;
      TailIs(t, q);
      assert SameKey(t, t.log[base + q], t.log[k]);
      assert base + q <= k;
      TailIs(t, k - base);
    }
  }

  lemma TailIs<T>(t: Table<T>, q: nat)
    requires BatchOk(t) && t.relay.Sending? && t.relay.sent == |t.relay.batch| && q < |t.relay.batch|
    ensures |t.log| >= |t.relay.batch| && t.log[|t.log| - |t.relay.batch| + q] == t.relay.batch[q]
  {
    var b := t.relay.batch;
    assert t.log[|t.log| - |b|..][q] == b[..|b|][q];
  }

  lemma MarkKeeps<T>(t: Table<T>)
    requires RelayInv(t)
    ensures RelayInv(Next(t, Mark))
  {
    MarkKeepsKeyOrdered(t);
    MarkKeepsLogTrue(t);
    MarkKeepsPrefix(t);
    MarkKeepsOrder(t);
  }

  lemma NextKeeps<T>(t: Table<T>, act: Act<T>)
    requires RelayInv(t)
    ensures RelayInv(Next(t, act))
  {
    match act {
      case Write(_, _) => WritingKeeps(t, act);
      case Commit(_) => WritingKeeps(t, act);
      case Rollback(_) => WritingKeeps(t, act);
      case Fetch(limit) => FetchKeeps(t, limit);
      case Publish => PublishKeeps(t);
      case GiveUp => EndBatchKeeps(t, act);
      case Mark => MarkKeeps(t);
      case Drop => EndBatchKeeps(t, act);
    }
  }

  /**
   Over every run: only published rows are marked, the marked rows of each key are a prefix by id, and first
   publications of a key's rows come in id order.
   */
  lemma {:induction false} RunKeeps<T>(t: Table<T>, acts: seq<Act<T>>)
    requires RelayInv(t)
    ensures RelayInv(Run(t, acts))
    decreases |acts|
  {
    if acts != [] {
      NextKeeps(t, acts[0]);
      RunKeeps(Next(t, acts[0]), acts[1..]);
    }
  }

  lemma EmptyTable<T>()
    ensures RelayInv<T>(Table([], [], Waiting))
  {
  }

  ghost predicate AllMarked<T>(t: Table<T>) {
    forall i :: !Unsent(t.rows, i)
  }

  /** Once every visible row is marked, a key's last log entry is its newest visible row. */
  lemma LastIsNewest<T>(t: Table<T>, k: nat, j: nat)
    requires RelayInv(t) && AllMarked(t) && LastOf(t, k)
    requires SameKey(t, t.log[k], j) && t.rows[j].visibility == Visible
    ensures j <= t.log[k]
  {
    assert !Unsent(t.rows, j);
  }
}
