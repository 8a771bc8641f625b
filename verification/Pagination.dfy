/** Walking the product list page by page: the pages must be one full query, cut up. */
module Pagination {
  import opened Base
  import opened Cursor
  import opened Sorting

  datatype Row = Row(key: Key, status: string, categoryId: string, shopId: string)

  predicate StampBefore(a: Stamp, b: Stamp) {
    || a.year < b.year
    || (a.year == b.year && (
          || a.month < b.month
          || (a.month == b.month && (
                || a.day < b.day
                || (a.day == b.day && (
                      || a.hour < b.hour
                      || (a.hour == b.hour && (
                            || a.minute < b.minute
                            || (a.minute == b.minute && (
                                  || a.second < b.second
                                  || (a.second == b.second && a.nano < b.nano)))))))))))
  }

  /** (created_at, id) < (b.created_at, b.id) */
  predicate KeyBefore(a: Key, b: Key) {
    StampBefore(a.createdAt, b.createdAt) || (a.createdAt == b.createdAt && Below(a.id, b.id))
  }

  /** ORDER BY created_at DESC, id DESC. */
  predicate Newer(a: Row, b: Row) {
    KeyBefore(b.key, a.key)
  }

  lemma NewerOrders()
    ensures StrictOrder(Newer)
    ensures forall a: Row, b: Row :: a.key == b.key || Newer(a, b) || Newer(b, a)
  {
    BelowIsStrictOrder();
    forall a: Stamp, b: Stamp, c: Stamp | StampBefore(a, b) && StampBefore(b, c) ensures StampBefore(a, c) {
      BeforeTransitive(a, b, c);
    }
  }

  lemma BeforeTransitive(a: Stamp, b: Stamp, c: Stamp)
    requires StampBefore(a, b) && StampBefore(b, c)
    ensures StampBefore(a, c)
  {
  }

  /** Where an instant stands among all: its fields read as one mixed number. */
  function Rank(t: Stamp): int {
    (((((t.year * 13 + t.month) * 32 + t.day) * 24 + t.hour) * 60 + t.minute) * 60 + t.second) * 1_000_000_000 + t.nano
  }

  /** Being before is being earlier, then being the smaller id; a list shows the latest first. */
  lemma NewerMeans(a: Row, b: Row)
    requires ValidStamp(a.key.createdAt) && ValidStamp(b.key.createdAt)
    ensures Newer(a, b) <==>
            Rank(a.key.createdAt) > Rank(b.key.createdAt)
            || (Rank(a.key.createdAt) == Rank(b.key.createdAt) && Below(b.key.id, a.key.id))
    ensures Rank(a.key.createdAt) == Rank(b.key.createdAt) <==> a.key.createdAt == b.key.createdAt
  {
    RankTells(a.key.createdAt, b.key.createdAt);
    RankTells(b.key.createdAt, a.key.createdAt);
  }

  lemma RankTells(a: Stamp, b: Stamp)
    requires ValidStamp(a) && ValidStamp(b)
    ensures StampBefore(a, b) <==> Rank(a) < Rank(b)
    ensures Rank(a) == Rank(b) ==> a == b
  {
  }

  // ---- one page ------------------------------------------------------------------------

  /** The WHERE clauses of List and ListByShop. */
  datatype Where = Public(categoryId: string, shopId: string) | OfShop(shopId: string)

  predicate Matches(w: Where, r: Row) {
    match w
    case Public(category, shop) =>
      r.status == "ACTIVE" && (category == "" || r.categoryId == category) && (shop == "" || r.shopId == shop)
    case OfShop(shop) => r.shopId == shop
  }

  /** The filter, and the keyset condition when there is a cursor. */
  predicate Picks(w: Where, cursor: Option<Key>, r: Row) {
    Matches(w, r) && (cursor.Some? ==> KeyBefore(r.key, cursor.value))
  }

  function Filter(w: Where, cursor: Option<Key>, rows: seq<Row>): seq<Row> {
    if rows == [] then []
    else (if Picks(w, cursor, rows[0]) then [rows[0]] else []) + Filter(w, cursor, rows[1..])
  }

  /** What the query without a limit returns. */
  function Query(w: Where, cursor: Option<Key>, rows: seq<Row>): seq<Row> {
    Sort(Newer, Filter(w, cursor, rows))
  }

  function PageSize(limit: int): (n: nat)
    ensures 1 <= n <= 100
    ensures 1 <= limit <= 100 ==> n == limit
    ensures limit < 1 || limit > 100 ==> n == 20
  {
    if limit <= 0 || limit > 100 then 20 else limit
  }

  class ProductTable {
    var rows: seq<Row>

    constructor (rows: seq<Row>)
      ensures this.rows == rows
    {
      this.rows := rows;
    }

    /** Reads one row more than the page holds, to learn whether another page follows. */
    method ListPage(w: Where, limit: int, cursor: Option<Key>) returns (out: seq<Row>, next: Option<Key>)
      ensures var all := Query(w, cursor, rows);
              out == Cut(all, PageSize(limit)) && next == NextKey(all, PageSize(limit))
    {
      var n := PageSize(limit);
      var found := Query(w, cursor, rows);
      out := [];
      var i := 0;
      while i < |found| && i < n + 1
        invariant 0 <= i <= |found| && i <= n + 1 && out == found[..i]
      {
        out := out + [found[i]];
        i := i + 1;
      }
      next := None;
      if |out| > n {
        next := Some(out[n - 1].key);
        out := out[..n];
      }
    }

    /** A request of the API: a page token in, a page and the next token out. */
    method ListProducts(w: Where, limit: int, token: string) returns (r: Result<(seq<Row>, string), BadCursor>)
      ensures r == Page(TOKENS, w, limit, rows, token)
      ensures r.Err? <==> DecodeCursor(token).Err?
      ensures r.Err? ==> r.reason == DecodeCursor(token).reason
    {
      var cursor := DecodeCursor(token);
      if cursor.Err? {
        return Err(cursor.reason);
      }
      var out, next := ListPage(w, limit, cursor.value);
      r := Ok((out, EncodeCursor(next)));
    }
  }

  function Cut(all: seq<Row>, n: nat): seq<Row> {
    if |all| > n then all[..n] else all
  }

  /** Where the rows cut off resume. */
  function NextKey(all: seq<Row>, n: nat): Option<Key>
    requires n > 0
  {
    if |all| > n then Some(all[n - 1].key) else None
  }

  /** How positions travel as page tokens. */
  datatype Codec = Codec(encode: Option<Key> -> string, decode: string -> Result<Option<Key>, BadCursor>)

  const TOKENS := Codec(EncodeCursor, DecodeCursor)

  /** A codec that brings every position back, and keeps the empty token for none. */
  ghost predicate Faithful(codec: Codec) {
    forall c :: codec.decode(codec.encode(c)) == Ok(c) && (codec.encode(c) == "" <==> c == None)
  }

  lemma TokensFaithful()
    ensures Faithful(TOKENS)
  {
    forall c ensures DecodeCursor(EncodeCursor(c)) == Ok(c) && (EncodeCursor(c) == "" <==> c == None) {
      TokenRoundTrip(c);
    }
  }

  function Page(codec: Codec, w: Where, limit: int, rows: seq<Row>, token: string): Result<(seq<Row>, string), BadCursor> {
    var cursor := codec.decode(token);
    if cursor.Err? then Err(cursor.reason)
    else
      var all := Query(w, cursor.value, rows);
      Ok((Cut(all, PageSize(limit)), codec.encode(NextKey(all, PageSize(limit)))))
  }

  lemma CountFirst<T>(x: T, xs: seq<T>, r: T)
    ensures multiset([x] + xs)[r] == multiset(xs)[r] + (if x == r then 1 else 0)
  {
    assert multiset([x] + xs) == multiset{x} + multiset(xs);
  }

  lemma {:induction false} FilterCount(w: Where, cursor: Option<Key>, rows: seq<Row>, r: Row)
    ensures multiset(Filter(w, cursor, rows))[r] == if Picks(w, cursor, r) then multiset(rows)[r] else 0
  {
    if rows != [] {
      var first, rest := rows[0], Filter(w, cursor, rows[1..]);
      FilterCount(w, cursor, rows[1..], r);
      assert rows == [first] + rows[1..];
      CountFirst(first, rows[1..], r);
      if Picks(w, cursor, first) {
        CountFirst(first, rest, r);
      } else {
        assert [] + rest == rest;
      }
    }
  }

  lemma QueryCount(w: Where, cursor: Option<Key>, rows: seq<Row>, r: Row)
    ensures multiset(Query(w, cursor, rows))[r] == if Picks(w, cursor, r) then multiset(rows)[r] else 0
  {
    SortPermutes(Newer, Filter(w, cursor, rows));
    FilterCount(w, cursor, rows, r);
  }

  lemma QueryKeys(w: Where, cursor: Option<Key>, rows: seq<Row>)
    ensures forall r :: r in Query(w, cursor, rows) ==> r in rows && Picks(w, cursor, r)
  {
    forall r | r in Query(w, cursor, rows) ensures r in rows && Picks(w, cursor, r) {
      assert r in multiset(Query(w, cursor, rows));
      QueryCount(w, cursor, rows, r);
      assert r in multiset(rows);
    }
  }

  /**
   The public list holds exactly the ACTIVE products of the category and shop asked for, if any; a shop's own list
   holds all of its products. A cursor keeps those before it.
   */
  lemma QueryHolds(category: string, shop: string, cursor: Option<Key>, rows: seq<Row>, r: Row)
    ensures r in Query(Public(category, shop), cursor, rows) <==>
            && r in rows && r.status == "ACTIVE" && (category != "" ==> r.categoryId == category) && (shop != "" ==> r.shopId == shop)
            && (cursor.Some? ==> KeyBefore(r.key, cursor.value))
    ensures r in Query(OfShop(shop), cursor, rows) <==>
            r in rows && r.shopId == shop && (cursor.Some? ==> KeyBefore(r.key, cursor.value))
  {
    QueryCount(Public(category, shop), cursor, rows, r);
    QueryCount(OfShop(shop), cursor, rows, r);
    assert r in rows <==> r in multiset(rows);
    assert r in Query(Public(category, shop), cursor, rows) <==> r in multiset(Query(Public(category, shop), cursor, rows));
    assert r in Query(OfShop(shop), cursor, rows) <==> r in multiset(Query(OfShop(shop), cursor, rows));
  }

  // ---- the walk ----------------------------------------------------------------------------

  ghost predicate DistinctKeys(rows: seq<Row>) {
    forall i, j :: 0 <= i < j < |rows| ==> rows[i].key != rows[j].key
  }

  /** A later state of the table: the same rows, and some newer than all of them. */
  ghost predicate Extends(now: seq<Row>, first: seq<Row>) {
    && DistinctKeys(now)
    && (forall r :: r in first ==> multiset(now)[r] == multiset(first)[r])
    && (forall r, s :: r in now && r !in first && s in first ==> Newer(r, s))
  }

  type Pager = string -> Result<(seq<Row>, string), BadCursor>

  /** Follows next tokens until none is returned; the table behind each page may be another one. */
  function Follow(pagers: seq<Pager>, token: string): Option<seq<Row>>
    decreases |pagers|
  {
    if pagers == [] then None
    else
      var page := pagers[0](token);
      if page.Err? then None
      else if page.value.1 == "" then Some(page.value.0)
      else
        var rest := Follow(pagers[1..], page.value.1);
        if rest == None then None else Some(page.value.0 + rest.value)
  }

  function Pagers(codec: Codec, w: Where, limit: int, tables: seq<seq<Row>>): (r: seq<Pager>)
    ensures |r| == |tables|
    ensures forall k, token :: 0 <= k < |tables| ==> r[k](token) == Page(codec, w, limit, tables[k], token)
  {
    seq(|tables|, k requires 0 <= k < |tables| => (token => Page(codec, w, limit, tables[k], token)))
  }

  lemma FilterDistinct(w: Where, cursor: Option<Key>, rows: seq<Row>)
    requires DistinctKeys(rows)
    ensures DistinctKeys(Filter(w, cursor, rows))
    ensures forall r :: r in Filter(w, cursor, rows) ==> r in rows
    decreases |rows|
  {
    if rows != [] {
      FilterDistinct(w, cursor, rows[1..]);
      forall r | r in Filter(w, cursor, rows[1..]) ensures r.key != rows[0].key {
        assert r in rows[1..];
      }
    }
  }

  lemma QuerySorted(w: Where, cursor: Option<Key>, rows: seq<Row>)
    requires DistinctKeys(rows)
    ensures Sorted(Newer, Query(w, cursor, rows))
  {
    NewerOrders();
    FilterDistinct(w, cursor, rows);
    SortSorts(Newer, Filter(w, cursor, rows));
  }

  /** How often a row occurs in what follows position j of a sorted query. */
  lemma SuffixCount(full: seq<Row>, j: nat, r: Row)
    requires Sorted(Newer, full) && 0 < j <= |full|
    ensures multiset(full[j..])[r] == if Newer(full[j - 1], r) then multiset(full)[r] else 0
  {
    NewerOrders();
    assert full == full[..j] + full[j..];
    if Newer(full[j - 1], r) {
      forall i | 0 <= i < j ensures full[..j][i] != r {
        assert i == j - 1 || Newer(full[i], full[j - 1]);
      }
      assert r !in multiset(full[..j]);
    } else {
      forall i | 0 <= i < |full| - j ensures full[j..][i] != r {
        assert Newer(full[j - 1], full[j + i]);
      }
      assert r !in multiset(full[j..]);
    }
  }

  /** A row at or below the cursor occurs in a later table as often as in the first. */
  lemma BelowCursorUnchanged(first: seq<Row>, now: seq<Row>, c: Row, r: Row)
    requires Extends(now, first) && c in first && Newer(c, r)
    ensures multiset(now)[r] == multiset(first)[r]
  {
    NewerAsymmetric(c, r);
    assert r in now <==> r in multiset(now);
    assert r in first <==> r in multiset(first);
  }

  lemma NewerAsymmetric(a: Row, b: Row)
    requires Newer(a, b)
    ensures !Newer(b, a)
  {
    NewerOrders();
    assert !Newer(a, a);
  }

  /** A row is found below the cursor of position j as often as it occurs after j. */
  lemma FoundAsAfter(w: Where, first: seq<Row>, now: seq<Row>, full: seq<Row>, j: nat, r: Row)
    requires Extends(now, first) && full == Query(w, None, first) && Sorted(Newer, full)
    requires 0 < j <= |full| && full[j - 1] in first
    ensures multiset(Query(w, Some(full[j - 1].key), now))[r] == multiset(full[j..])[r]
  {
    QueryCount(w, Some(full[j - 1].key), now, r);
    QueryCount(w, None, first, r);
    SuffixCount(full, j, r);
    if Newer(full[j - 1], r) {
      BelowCursorUnchanged(first, now, full[j - 1], r);
    }
  }

  /** Resuming below a row of the full query, on any later table, gives exactly what followed that row. */
  lemma ResumesExactly(w: Where, first: seq<Row>, now: seq<Row>, full: seq<Row>, j: nat)
    requires DistinctKeys(first) && Extends(now, first) && full == Query(w, None, first) && 0 < j <= |full|
    ensures Query(w, Some(full[j - 1].key), now) == full[j..]
  {
    QuerySorted(w, None, first);
    QuerySorted(w, Some(full[j - 1].key), now);
    QueryKeys(w, None, first);
    assert full[j - 1] in full;
    var found := Query(w, Some(full[j - 1].key), now);
    forall r ensures multiset(found)[r] == multiset(full[j..])[r] {
      FoundAsAfter(w, first, now, full, j, r);
    }
    SuffixSorted(full, j);
    NewerOrders();
    SameMembers(found, full[j..]);
    OneArrangement(Newer, found, full[j..]);
  }

  lemma SuffixSorted(full: seq<Row>, j: nat)
    requires Sorted(Newer, full) && j <= |full|
    ensures Sorted(Newer, full[j..])
  {
    forall i, k | 0 <= i < k < |full| - j ensures Newer(full[j..][i], full[j..][k]) {
      assert Newer(full[j + i], full[j + k]);
    }
  }

  /** The position that resumes after j rows: none at the start. */
  function After(full: seq<Row>, j: nat): Option<Key>
    requires j <= |full|
  {
    if j == 0 then None else Some(full[j - 1].key)
  }

  /** The tokens that resume after 0, 1, ... rows. */
  function Tokens(codec: Codec, full: seq<Row>): (r: seq<string>)
    ensures |r| == |full| + 1
    ensures forall j :: 0 <= j <= |full| ==> r[j] == codec.encode(After(full, j))
  {
    seq(|full| + 1, j requires 0 <= j <= |full| => codec.encode(After(full, j)))
  }

  /** Cutting what is left of the full query after j rows. */
  lemma CutOfSuffix(full: seq<Row>, j: nat, n: nat)
    requires j <= |full| && n > 0
    ensures j + n < |full| ==> Cut(full[j..], n) == full[j..j + n] && NextKey(full[j..], n) == After(full, j + n)
    ensures j + n >= |full| ==> Cut(full[j..], n) == full[j..] && NextKey(full[j..], n) == None
  {
    if j + n < |full| {
      assert full[j..][n - 1] == full[j + n - 1];
    }
  }

  /** The page a token brings: the next n rows of the full query, and the token after them if any are left. */
  ghost predicate Serves(pager: Pager, full: seq<Row>, tokens: seq<string>, n: nat, j: nat)
    requires j <= |full| && |tokens| == |full| + 1
  {
    pager(tokens[j]) == Ok(if j + n < |full| then (full[j..j + n], tokens[j + n]) else (full[j..], ""))
  }

  lemma PageAt(codec: Codec, w: Where, limit: int, first: seq<Row>, now: seq<Row>, full: seq<Row>, j: nat)
    requires Faithful(codec) && DistinctKeys(first) && full == Query(w, None, first)
    requires j <= |full| && Extends(now, first) && (j == 0 ==> now == first)
    ensures var tokens, n := Tokens(codec, full), PageSize(limit);
            Page(codec, w, limit, now, tokens[j]) ==
            Ok(if j + n < |full| then (full[j..j + n], tokens[j + n]) else (full[j..], ""))
  {
    if j > 0 {
      ResumesExactly(w, first, now, full, j);
    } else {
      assert full[0..] == full;
    }
    assert Query(w, After(full, j), now) == full[j..];
    CutOfSuffix(full, j, PageSize(limit));
  }

  /** Pagers that serve every position are followed to the end. */
  lemma {:induction false} FollowFrom(pagers: seq<Pager>, full: seq<Row>, tokens: seq<string>, n: nat, j: nat)
    requires n > 0 && j <= |full| && |full| - j < |pagers|
    requires |tokens| == |full| + 1 && forall i :: 0 < i <= |full| ==> tokens[i] != ""
    requires Serves(pagers[0], full, tokens, n, j)
    requires forall k, i :: 0 < k < |pagers| && 0 < i <= |full| ==> Serves(pagers[k], full, tokens, n, i)
    ensures Follow(pagers, tokens[j]) == Some(full[j..])
    decreases |pagers|
  {
    if j + n < |full| {
      assert Serves(pagers[1], full, tokens, n, j + n);
      FollowFrom(pagers[1..], full, tokens, n, j + n);
      assert full[j..] == full[j..j + n] + full[j + n..];
    }
  }

  lemma PagerServes(codec: Codec, w: Where, limit: int, first: seq<Row>, later: seq<seq<Row>>, full: seq<Row>, k: nat, i: nat)
    requires Faithful(codec) && DistinctKeys(first) && full == Query(w, None, first)
    requires k <= |later| && i <= |full| && (k == 0 <==> i == 0) && (k > 0 ==> Extends(later[k - 1], first))
    ensures Serves(Pagers(codec, w, limit, [first] + later)[k], full, Tokens(codec, full), PageSize(limit), i)
  {
    var now := ([first] + later)[k];
    assert now == if k == 0 then first else later[k - 1];
    PageAt(codec, w, limit, first, now, full, i);
  }

  lemma TokensTelling(codec: Codec, full: seq<Row>)
    requires Faithful(codec)
    ensures forall i :: 0 <= i <= |full| ==> (Tokens(codec, full)[i] == "" <==> i == 0)
  {
    forall i | 0 <= i <= |full| ensures Tokens(codec, full)[i] == "" <==> i == 0 {
      assert codec.encode(After(full, i)) == "" <==> After(full, i) == None;
    }
  }

  lemma WalkServed(codec: Codec, w: Where, limit: int, first: seq<Row>, later: seq<seq<Row>>, full: seq<Row>)
    requires Faithful(codec) && DistinctKeys(first) && full == Query(w, None, first) && |full| <= |later|
    requires forall k :: 0 <= k < |later| ==> Extends(later[k], first)
    ensures Follow(Pagers(codec, w, limit, [first] + later), "") == Some(full)
  {
    var pagers, tokens, n := Pagers(codec, w, limit, [first] + later), Tokens(codec, full), PageSize(limit);
    TokensTelling(codec, full);
    PagerServes(codec, w, limit, first, later, full, 0, 0);
    forall k, i | 0 < k < |pagers| && 0 < i <= |full| ensures Serves(pagers[k], full, tokens, n, i) {
      PagerServes(codec, w, limit, first, later, full, k, i);
    }
    FollowFrom(pagers, full, tokens, n, 0);
    assert tokens[0] == "" && full[0..] == full;
  }

  /**
   Following next tokens from the start, on tables that only gain newer rows between pages, ends, and the pages
   concatenate to exactly the first table's matching rows in (created_at, id) order, each once.
   */
  lemma WalkIsFullQuery(w: Where, limit: int, first: seq<Row>, later: seq<seq<Row>>)
    requires DistinctKeys(first)
    requires forall k :: 0 <= k < |later| ==> Extends(later[k], first)
    requires |later| >= |first|
    ensures Follow(Pagers(TOKENS, w, limit, [first] + later), "") == Some(Query(w, None, first))
    ensures multiset(Query(w, None, first)) == multiset(Filter(w, None, first)) && Sorted(Newer, Query(w, None, first))
  {
    SortPermutes(Newer, Filter(w, None, first));
    QuerySorted(w, None, first);
    FullNoLonger(w, first);
    TokensFaithful();
    WalkServed(TOKENS, w, limit, first, later, Query(w, None, first));
  }

  lemma FullNoLonger(w: Where, rows: seq<Row>)
    ensures |Query(w, None, rows)| <= |rows|
  {
    SortPermutes(Newer, Filter(w, None, rows));
    assert |multiset(Query(w, None, rows))| == |multiset(Filter(w, None, rows))|;
    FilterShorter(w, rows);
  }

  lemma {:induction false} FilterShorter(w: Where, rows: seq<Row>)
    ensures |Filter(w, None, rows)| <= |rows|
  {
    if rows != [] {
      FilterShorter(w, rows[1..]);
    }
  }
}
