/** The catalog's writers: a product row and its outbox row change in one transaction, or not at all. */
module Catalog {
  import opened Base
  import opened Search
  import Outbox
  import Pipeline

  datatype Change = Create(product: Product) | Update(product: Product) | Archive(id: string)

  datatype Failure = NotFound | DuplicateId | CommitFailed

  /** The product row a change leaves, given the table. An update keeps the slug. */
  function Outcome(products: map<string, Product>, c: Change): Result<Product, Failure> {
    match c
    case Create(p) => if p.id in products then Err(DuplicateId) else Ok(p)
    case Update(p) => if p.id in products then Ok(p.(slug := products[p.id].slug)) else Err(NotFound)
    case Archive(id) => if id in products then Ok(products[id].(status := Archived)) else Err(NotFound)
  }

  function IdOf(c: Change): string {
    match c
    case Create(p) => p.id
    case Update(p) => p.id
    case Archive(id) => id
  }

  class CatalogStore {
    var products: map<string, Product>
    var rows: seq<Outbox.Row<ProductChanged>>

    ghost predicate Valid()
      reads this
    {
      forall id :: id in products ==> products[id].id == id
    }

    /** The state of the whole pipeline around these two tables. */
    ghost function Within(s: Pipeline.Pipe): Pipeline.Pipe
      reads this
    {
      s.(products := products, table := s.table.(rows := rows))
    }

    constructor ()
      ensures Valid() && products == map[] && rows == []
    {
      products, rows := map[], [];
    }

    /**
     One write transaction. It holds the product's row, so no other transaction of that product is open. What
     it leaves is what the pipeline's two steps, insert and end, leave.
     */
    method WriteTx(c: Change, commitLands: bool, ghost part: string -> nat, ghost around: Pipeline.Pipe)
        returns (r: Result<Product, Failure>)
      requires Valid()
      requires Outcome(products, c).Ok? ==>
                 forall i :: 0 <= i < |rows| && rows[i].key == Outcome(products, c).value.id ==> rows[i].visibility != Outbox.Pending
      modifies this
      ensures Valid()
      ensures r == if old(Outcome(products, c)).Ok? && !commitLands then Err(CommitFailed) else old(Outcome(products, c))
      ensures products == if r.Ok? then old(products)[r.value.id := r.value] else old(products)
      ensures r.Ok? ==> match c
                        case Create(p) => p.id !in old(products) && r.value == p
                        case Update(p) => p.id in old(products) && r.value == p.(slug := old(products)[p.id].slug)
                        case Archive(id) => id in old(products) && r.value == old(products)[id].(status := Archived)
      ensures r.Err? ==> match c
                         case Create(p) => r.reason == (if p.id in old(products) then DuplicateId else CommitFailed)
                         case Update(p) => r.reason == (if p.id in old(products) then CommitFailed else NotFound)
                         case Archive(id) => r.reason == (if id in old(products) then CommitFailed else NotFound)
      ensures r.Ok? ==> rows == old(rows) + [Outbox.Row(IdOf(c), ProductChanged(IdOf(c), Some(r.value)), Outbox.Visible, false)]
      ensures r == Err(CommitFailed) ==>
                |rows| == |old(rows)| + 1 && rows[..|old(rows)|] == old(rows)
                && rows[|old(rows)|].key == IdOf(c) && rows[|old(rows)|].visibility == Outbox.Aborted
      ensures old(Outcome(products, c)).Err? ==> rows == old(rows)
      ensures old(Outcome(products, c)).Ok? ==>
                Within(around) == Pipeline.Run(part, old(Within(around)),
                                               [Pipeline.Change(old(Outcome(products, c)).value), Pipeline.End(|old(rows)|, r.Ok?)])
    {
      var row := Outcome(products, c);
      if row.Err? {
        return row;
      }
      var p := row.value;
      var evt := ProductChanged(p.id, Some(p));
      WriteRuns(part, Within(around), p, commitLands);
      var visibility := if commitLands then Outbox.Visible else Outbox.Aborted;
      rows := rows + [Outbox.Row(p.id, evt, visibility, false)];
      if !commitLands {
        return Err(CommitFailed);
      }
      products := products[p.id := p];
      r := row;
    }
  }

  /** Inserting a product's row and ending its transaction, with no other transaction of the product open. */
  lemma WriteRuns(part: string -> nat, s: Pipeline.Pipe, p: Product, commits: bool)
    requires forall i :: 0 <= i < |s.table.rows| && s.table.rows[i].key == p.id ==> s.table.rows[i].visibility != Outbox.Pending
    ensures var visibility := if commits then Outbox.Visible else Outbox.Aborted;
            Pipeline.Run(part, s, [Pipeline.Change(p), Pipeline.End(|s.table.rows|, commits)]) ==
            s.(products := if commits then s.products[p.id := p] else s.products,
               table := s.table.(rows := s.table.rows + [Outbox.Row(p.id, ProductChanged(p.id, Some(p)), visibility, false)]))
  {
    var n := |s.table.rows|;
    Pipeline.RunTwo(part, s, Pipeline.Change(p), Pipeline.End(n, commits));
    var mid := Pipeline.Next(part, s, Pipeline.Change(p));
    var visibility := if commits then Outbox.Visible else Outbox.Aborted;
    assert commits ==> Outbox.MayCommit(mid.table.rows, n);
    assert mid.table.rows[n := mid.table.rows[n].(visibility := visibility)] ==
           s.table.rows + [Outbox.Row(p.id, ProductChanged(p.id, Some(p)), visibility, false)];
  }
}
