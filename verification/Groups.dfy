/** Splitting an order's lines by shop: once in the order service, once in fulfillment. */
module Groups {
  import opened Base
  import opened Pricing
  import opened Sorting

  datatype ShipItem = ShipItem(productId: string, title: string, quantity: int)

  datatype ShopItems = ShopItems(shopId: string, items: seq<ShipItem>)

  function ItemOf(l: Line): ShipItem {
    ShipItem(l.productId, l.title, l.quantity)
  }

  predicate HasShop(ls: seq<Line>, shop: string) {
    exists i :: 0 <= i < |ls| && ls[i].shopId == shop
  }

  /** The shops of the lines, each once, sorted. First-party lines have the shop "". */
  ghost predicate IsShopList(shops: seq<string>, ls: seq<Line>) {
    Sorted(Below, shops) && forall shop :: shop in shops <==> HasShop(ls, shop)
  }

  /** There is only one such list. */
  lemma ShopListUnique(a: seq<string>, b: seq<string>, ls: seq<Line>)
    requires IsShopList(a, ls) && IsShopList(b, ls)
    ensures a == b
  {
    BelowIsStrictOrder();
    OneArrangement(Below, a, b);
  }

  lemma SortedShops(shops: seq<string>)
    requires Distinct(shops)
    ensures Sorted(Below, Sort(Below, shops))
    ensures forall shop :: shop in Sort(Below, shops) <==> shop in shops
  {
    BelowIsStrictOrder();
    SortSorts(Below, shops);
    SortPermutes(Below, shops);
    SameMembers(Sort(Below, shops), shops);
  }

  /** The order service: collect unseen shops in line order, then sort. */
  method ShopGroups(lines: seq<Line>) returns (groups: seq<string>)
    ensures IsShopList(groups, lines)
  {
    var seen: set<string> := {};
    var shops: seq<string> := [];
    var i := 0;
    while i < |lines|
      invariant 0 <= i <= |lines|
      invariant Distinct(shops) && forall shop :: shop in shops <==> shop in seen
      invariant forall shop :: shop in seen <==> HasShop(lines[..i], shop)
    {
      var shop := lines[i].shopId;
      HasShopPush(lines, i);
      if shop !in seen {
        seen := seen + {shop};
        shops := shops + [shop];
      }
      i := i + 1;
    }
    assert lines[..i] == lines;
    SortedShops(shops);
    groups := Sort(Below, shops);
  }

  lemma HasShopPush(ls: seq<Line>, i: nat)
    requires i < |ls|
    ensures forall shop :: HasShop(ls[..i + 1], shop) <==> HasShop(ls[..i], shop) || shop == ls[i].shopId
  {
    forall shop ensures HasShop(ls[..i + 1], shop) <==> HasShop(ls[..i], shop) || shop == ls[i].shopId {
      if HasShop(ls[..i], shop) {
        var k :| 0 <= k < i && ls[..i][k].shopId == shop;
        assert ls[..i + 1][k].shopId == shop;
      }
      if HasShop(ls[..i + 1], shop) {
        var k :| 0 <= k < i + 1 && ls[..i + 1][k].shopId == shop;
        assert k < i ==> ls[..i][k].shopId == shop;
      }
      assert ls[..i + 1][i] == ls[i];
    }
  }

  /** The items of one shop, in line order. */
  function ItemsOf(ls: seq<Line>, shop: string): seq<ShipItem> {
    if ls == [] then []
    else
      var n := |ls| - 1;
      ItemsOf(ls[..n], shop) + (if ls[n].shopId == shop then [ItemOf(ls[n])] else [])
  }

  lemma {:induction false} NoItemsWithoutShop(ls: seq<Line>, shop: string)
    ensures HasShop(ls, shop) <==> ItemsOf(ls, shop) != []
  {
    if ls != [] {
      var n := |ls| - 1;
      NoItemsWithoutShop(ls[..n], shop);
      HasShopPush(ls, n);
      assert ls[..n + 1] == ls;
    }
  }

  /** Buckets the items by shop, in line order. */
  method Buckets(lines: seq<Line>) returns (byShop: map<string, seq<ShipItem>>)
    ensures forall shop :: shop in byShop <==> HasShop(lines, shop)
    ensures forall shop :: shop in byShop ==> byShop[shop] == ItemsOf(lines, shop)
  {
    byShop := map[];
    var i := 0;
    while i < |lines|
      invariant 0 <= i <= |lines|
      invariant forall shop :: shop in byShop <==> HasShop(lines[..i], shop)
      invariant forall shop :: shop in byShop ==> byShop[shop] == ItemsOf(lines[..i], shop)
    {
      var l := lines[i];
      HasShopPush(lines, i);
      NoItemsWithoutShop(lines[..i], l.shopId);
      assert lines[..i + 1][..i] == lines[..i];
      byShop := byShop[l.shopId := (if l.shopId in byShop then byShop[l.shopId] else []) + [ItemOf(l)]];
      i := i + 1;
    }
    assert lines[..i] == lines;
  }

  /** The keys of the map, in whatever order it yields them, sorted. */
  method SortedKeys(byShop: map<string, seq<ShipItem>>) returns (shopIds: seq<string>)
    ensures Sorted(Below, shopIds) && forall shop :: shop in shopIds <==> shop in byShop
  {
    shopIds := [];
    var left := byShop.Keys;
    while left != {}
      invariant left <= byShop.Keys
      invariant Distinct(shopIds) && forall shop :: shop in shopIds <==> shop in byShop.Keys - left
      decreases left
    {
      var id :| id in left;
      assert id !in shopIds;
      shopIds := shopIds + [id];
      left := left - {id};
    }
    SortedShops(shopIds);
    shopIds := Sort(Below, shopIds);
  }

  /** Fulfillment: bucket the items by shop, sort the shops, and read the buckets out. */
  method GroupsFrom(lines: seq<Line>) returns (groups: seq<ShopItems>)
    ensures IsShopList(ShopsOf(groups), lines)
    ensures forall k :: 0 <= k < |groups| ==> groups[k].items == ItemsOf(lines, groups[k].shopId)
  {
    var byShop := Buckets(lines);
    var shopIds := SortedKeys(byShop);
    groups := [];
    var k := 0;
    while k < |shopIds|
      invariant 0 <= k <= |shopIds| && ShopsOf(groups) == shopIds[..k]
      invariant forall j :: 0 <= j < |groups| ==> groups[j].items == ItemsOf(lines, groups[j].shopId)
    {
      assert shopIds[k] in shopIds;
      groups := groups + [ShopItems(shopIds[k], byShop[shopIds[k]])];
      k := k + 1;
    }
    assert shopIds[..k] == shopIds;
  }

  function ShopsOf(groups: seq<ShopItems>): (r: seq<string>)
    ensures |r| == |groups| && forall k :: 0 <= k < |r| ==> r[k] == groups[k].shopId
  {
    seq(|groups|, k requires 0 <= k < |groups| => groups[k].shopId)
  }

  function Flat(groups: seq<ShopItems>): seq<ShipItem> {
    if groups == [] then [] else groups[0].items + Flat(groups[1..])
  }

  function AllItems(ls: seq<Line>): (r: seq<ShipItem>)
    ensures |r| == |ls|
  {
    seq(|ls|, i requires 0 <= i < |ls| => ItemOf(ls[i]))
  }

  function FlatOf(shops: seq<string>, ls: seq<Line>): seq<ShipItem> {
    if shops == [] then [] else ItemsOf(ls, shops[0]) + FlatOf(shops[1..], ls)
  }

  /** A line's item says what of it is to be shipped. */
  lemma ItemsSay(ls: seq<Line>, i: nat)
    requires i < |ls|
    ensures AllItems(ls)[i].productId == ls[i].productId && AllItems(ls)[i].title == ls[i].title && AllItems(ls)[i].quantity == ls[i].quantity
  {
  }

  /** One more line adds its item to one bucket. */
  lemma {:induction false} FlatPush(shops: seq<string>, ls: seq<Line>)
    requires ls != [] && Distinct(shops)
    ensures var n := |ls| - 1;
            multiset(FlatOf(shops, ls)) ==
            multiset(FlatOf(shops, ls[..n])) + (if ls[n].shopId in shops then multiset{ItemOf(ls[n])} else multiset{})
  {
    if shops != [] {
      FlatPush(shops[1..], ls);
      assert shops[0] !in shops[1..];
      assert shops == [shops[0]] + shops[1..];
    }
  }

  lemma AllItemsPush(ls: seq<Line>)
    requires ls != []
    ensures multiset(AllItems(ls)) == multiset(AllItems(ls[..|ls| - 1])) + multiset{ItemOf(ls[|ls| - 1])}
  {
    assert AllItems(ls) == AllItems(ls[..|ls| - 1]) + [ItemOf(ls[|ls| - 1])];
  }

  lemma {:induction false} FlatHoldsAll(shops: seq<string>, ls: seq<Line>)
    requires Distinct(shops) && forall i :: 0 <= i < |ls| ==> ls[i].shopId in shops
    ensures multiset(FlatOf(shops, ls)) == multiset(AllItems(ls))
    decreases |ls|
  {
    if ls == [] {
      FlatOfNothing(shops);
    } else {
      var n := |ls| - 1;
      var rest, it := ls[..n], ItemOf(ls[n]);
      FlatPush(shops, ls);
      assert forall i :: 0 <= i < |rest| ==> rest[i] == ls[i];
      FlatHoldsAll(shops, rest);
      AllItemsPush(ls);
    }
  }

  lemma {:induction false} FlatOfNothing(shops: seq<string>)
    ensures FlatOf(shops, []) == []
  {
    if shops != [] {
      FlatOfNothing(shops[1..]);
    }
  }

  lemma {:induction false} FlatIsFlatOf(groups: seq<ShopItems>, ls: seq<Line>)
    requires forall k :: 0 <= k < |groups| ==> groups[k].items == ItemsOf(ls, groups[k].shopId)
    ensures Flat(groups) == FlatOf(ShopsOf(groups), ls)
  {
    if groups != [] {
      FlatIsFlatOf(groups[1..], ls);
      assert ShopsOf(groups)[1..] == ShopsOf(groups[1..]);
    }
  }

  /**
   Whatever fulfillment's map order was, its groups are those the order waits for, and they partition the
   order's lines: none is empty, and together they hold every line once.
   */
  lemma GroupsAgreeAndPartition(groups: seq<ShopItems>, waited: seq<string>, ls: seq<Line>)
    requires IsShopList(ShopsOf(groups), ls) && IsShopList(waited, ls)
    requires forall k :: 0 <= k < |groups| ==> groups[k].items == ItemsOf(ls, groups[k].shopId)
    ensures ShopsOf(groups) == waited
    ensures multiset(Flat(groups)) == multiset(AllItems(ls))
    ensures forall k :: 0 <= k < |groups| ==> groups[k].items != []
  {
    ShopListUnique(ShopsOf(groups), waited, ls);
    BelowIsStrictOrder();
    assert Distinct(waited);
    forall i | 0 <= i < |ls| ensures ls[i].shopId in waited {
      assert HasShop(ls, ls[i].shopId);
    }
    FlatHoldsAll(waited, ls);
    FlatIsFlatOf(groups, ls);
    forall k | 0 <= k < |groups| ensures groups[k].items != [] {
      assert ShopsOf(groups)[k] in waited;
      NoItemsWithoutShop(ls, groups[k].shopId);
    }
  }
}
