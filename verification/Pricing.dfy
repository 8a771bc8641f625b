/**
 The pricing service: line collection, quote arithmetic and the drift signature.

 All amounts of a quote share its currency, so they are carried in cents.
 The signature stands for its SHA-256 by the text that is hashed.
 */
module Pricing {
  import opened Base
  import opened Money
  import opened Sorting

  datatype Reason =
    | BadCurrency | NoItems | BadQuantity | CatalogUnavailable | ProductUnpriceable | CurrencyMismatch
    | CouponUnknown | EmptyQuote | CouponExpired | CouponExhausted

  // ---- money rules -------------------------------------------------------

  function Sub(a: int, b: int): int {
    if a - b < 0 then 0 else a - b
  }

  function PercentOff(cents: int, p: int): int {
    if p <= 0 then 0 else GoDiv(cents * (if p > 100 then 100 else p) + 50, 100)
  }

  function TaxBps(cents: int, bps: int): int {
    if bps <= 0 then 0 else GoDiv(cents * bps + 5000, 10_000)
  }

  function Min(a: int, b: int): int {
    if a < b then a else b
  }

  /** A percentage is within half a cent of exact, half a cent going up, and never above the whole. */
  lemma PercentOffNearest(cents: int, p: int)
    requires cents >= 0
    ensures var q := if p <= 0 then 0 else if p > 100 then 100 else p;
            -50 < 100 * PercentOff(cents, p) - cents * q <= 50
    ensures 0 <= PercentOff(cents, p) <= cents
  {
    var q := if p <= 0 then 0 else if p > 100 then 100 else p;
    if p > 0 {
      assert 0 <= cents * q <= cents * 100 by {
        MulMonotone(q, 100, cents);
        MulMonotone(0, q, cents);
      }
    }
  }

  lemma TaxBpsNearest(cents: int, bps: int)
    requires cents >= 0
    ensures bps > 0 ==> -5000 < 10_000 * TaxBps(cents, bps) - cents * bps <= 5000
    ensures TaxBps(cents, bps) >= 0
  {
    if bps > 0 {
      MulMonotone(0, bps, cents);
    }
  }

  lemma MulMonotone(a: int, b: int, c: int)
    requires a <= b && c >= 0
    ensures a * c <= b * c
    ensures c * a <= c * b
  {
    assert (b - a) * c >= 0;
  }

  // ---- quotes ------------------------------------------------------------

  datatype CouponKind = Percent | Amount | Unknown

  datatype Coupon = Coupon(
    code: string, kind: CouponKind, percentOff: int, amountOff: int,
    expiresAt: Option<int>, maxUses: int, usedCount: int)

  datatype Line = Line(
    productId: string, title: string, quantity: int, unitPrice: int, lineTotal: int, shopId: string)

  datatype Quote = Quote(
    lines: seq<Line>, subtotal: int, discount: int, tax: int, total: int, coupon: string, signature: string)

  function CouponRefusal(c: Coupon, now: int): Option<Reason> {
    if c.expiresAt.Some? && now > c.expiresAt.value then Some(CouponExpired)
    else if c.maxUses > 0 && c.usedCount >= c.maxUses then Some(CouponExhausted)
    else None
  }

  function Gross(l: Line): int {
    l.unitPrice * l.quantity
  }

  function Discount(coupon: Option<Coupon>, subtotal: int): int {
    match coupon
    case None => 0
    case Some(c) =>
      match c.kind
      case Percent => PercentOff(subtotal, c.percentOff)
      case Amount => Min(c.amountOff, subtotal)
      case Unknown => 0
  }

  function Priced(ls: seq<Line>): (r: seq<Line>)
    ensures |r| == |ls|
    ensures forall i :: 0 <= i < |ls| ==> r[i] == ls[i].(lineTotal := Gross(ls[i]))
  {
    seq(|ls|, i requires 0 <= i < |ls| => ls[i].(lineTotal := Gross(ls[i])))
  }

  /** Where pricing stops: the first line with no positive quantity, or the end. */
  function FirstBad(ls: seq<Line>): (k: nat)
    ensures k <= |ls|
    ensures k < |ls| ==> ls[k].quantity <= 0
    ensures forall i :: 0 <= i < k ==> ls[i].quantity > 0
  {
    if ls == [] || ls[0].quantity <= 0 then 0 else 1 + FirstBad(ls[1..])
  }

  function QuoteOf(currency: string, ls: seq<Line>, coupon: Option<Coupon>, taxBps: int): Quote {
    var subtotal := Total(Gross, ls);
    var discount := Discount(coupon, subtotal);
    var taxable := Sub(subtotal, discount);
    var tax := TaxBps(taxable, taxBps);
    var code := if coupon.Some? then coupon.value.code else "";
    Quote(Priced(ls), subtotal, discount, tax, taxable + tax, code,
          Preimage(currency, Priced(ls), discount, tax, taxable + tax))
  }

  /** Prices the lines in place. */
  method Price(currency: string, lines: array<Line>, coupon: Option<Coupon>, taxBps: int, now: int)
    returns (r: Result<Quote, Reason>)
    modifies lines
    ensures lines.Length == 0 ==> r == Err(EmptyQuote)
    ensures var k := FirstBad(old(lines[..]));
            lines[..] == Priced(old(lines[..k])) + old(lines[k..])
    ensures lines.Length > 0 && FirstBad(old(lines[..])) < lines.Length ==> r == Err(BadQuantity)
    ensures lines.Length > 0 && FirstBad(old(lines[..])) == lines.Length ==>
      r == (if coupon.Some? && CouponRefusal(coupon.value, now).Some?
            then Err(CouponRefusal(coupon.value, now).value)
            else Ok(QuoteOf(currency, old(lines[..]), coupon, taxBps)))
    ensures r.Ok? <==>
      lines.Length > 0 && (forall j :: 0 <= j < lines.Length ==> old(lines[j].quantity) > 0) && (coupon.Some? ==> Usable(coupon.value, now))
  {
    ghost var was := lines[..];
    assert forall j :: 0 <= j < lines.Length ==> was[j] == lines[j];
    if lines.Length == 0 {
      return Err(EmptyQuote);
    }
    var subtotal := 0;
    var i := 0;
    while i < lines.Length
      invariant 0 <= i <= FirstBad(was)
      invariant forall j :: 0 <= j < i ==> lines[j] == was[j].(lineTotal := Gross(was[j]))
      invariant forall j :: i <= j < lines.Length ==> lines[j] == was[j]
      invariant subtotal == Total(Gross, was[..i])
    {
      if lines[i].quantity <= 0 {
        FirstBadIs(was, i);
        PartlyPriced(was, lines[..], i);
        return Err(BadQuantity);
      }
      NotBad(was, i);
      assert was[..i + 1] == was[..i] + [was[i]];
      TotalPush(Gross, was[..i], was[i]);
      lines[i] := lines[i].(lineTotal := lines[i].unitPrice * lines[i].quantity);
      subtotal := subtotal + lines[i].lineTotal;
      i := i + 1;
    }
    assert was[..i] == was;
    PartlyPriced(was, lines[..], i);
    r := Totals(currency, lines[..], subtotal, coupon, taxBps, now);
  }

  /** Lines priced up to i. */
  lemma PartlyPriced(was: seq<Line>, now: seq<Line>, i: nat)
    requires i <= |was| == |now|
    requires forall j :: 0 <= j < i ==> now[j] == was[j].(lineTotal := Gross(was[j]))
    requires forall j :: i <= j < |was| ==> now[j] == was[j]
    ensures now == Priced(was[..i]) + was[i..]
    ensures i == |was| ==> now == Priced(was)
  {
  }

  /** The second half of Price: discount, tax and total over the priced lines. */
  method Totals(currency: string, lines: seq<Line>, subtotal: int, coupon: Option<Coupon>, taxBps: int, now: int)
    returns (r: Result<Quote, Reason>)
    ensures coupon.Some? && CouponRefusal(coupon.value, now).Some? ==> r == Err(CouponRefusal(coupon.value, now).value)
    ensures !(coupon.Some? && CouponRefusal(coupon.value, now).Some?) ==>
      r.Ok? && (forall ls :: Priced(ls) == lines && Total(Gross, ls) == subtotal ==>
                             r.value == QuoteOf(currency, ls, coupon, taxBps))
  {
    var discount, code := 0, "";
    if coupon.Some? {
      var refusal := CouponRefusal(coupon.value, now);
      if refusal.Some? {
        return Err(refusal.value);
      }
      match coupon.value.kind {
        case Percent => discount := PercentOff(subtotal, coupon.value.percentOff);
        case Amount => discount := Min(coupon.value.amountOff, subtotal);
        case Unknown =>
      }
      code := coupon.value.code;
    }
    var taxable := Sub(subtotal, discount);
    var tax := TaxBps(taxable, taxBps);
    var signature := Preimage(currency, lines, discount, tax, taxable + tax);
    r := Ok(Quote(lines, subtotal, discount, tax, taxable + tax, code, signature));
  }

  lemma NotBad(ls: seq<Line>, k: nat)
    requires k <= FirstBad(ls) && k < |ls| && ls[k].quantity > 0
    ensures k < FirstBad(ls)
  {
  }

  lemma FirstBadIs(ls: seq<Line>, k: nat)
    requires k <= FirstBad(ls) && k < |ls| && ls[k].quantity <= 0
    ensures FirstBad(ls) == k
  {
  }

  ghost predicate Sane(ls: seq<Line>) {
    forall l :: l in ls ==> l.unitPrice >= 0 && l.quantity > 0
  }

  /**
   The figures of a quote add up: the clamp in Sub never fires, and the discount lies within the
   subtotal exactly when no fixed-amount coupon carries a negative amount.
   */
  lemma QuoteAddsUp(currency: string, ls: seq<Line>, coupon: Option<Coupon>, taxBps: int)
    requires Sane(ls)
    ensures var q := QuoteOf(currency, ls, coupon, taxBps);
            && q.total == q.subtotal - q.discount + q.tax
            && q.subtotal >= 0 && q.discount <= q.subtotal && q.tax >= 0 && q.total >= 0
            && (q.discount >= 0 <==> !(coupon.Some? && coupon.value.kind == Amount && coupon.value.amountOff < 0))
  {
    forall l | l in ls ensures Gross(l) >= 0 {
      MulMonotone(0, l.quantity, l.unitPrice);
    }
    TotalNonNegative(Gross, ls);
    var subtotal := Total(Gross, ls);
    if coupon.Some? {
      PercentOffNearest(subtotal, coupon.value.percentOff);
    }
    TaxBpsNearest(Sub(subtotal, Discount(coupon, subtotal)), taxBps);
  }

  /** The condition fails in earnest: a coupon of minus five dollars off raises a ten dollar order to fifteen. */
  lemma NegativeCouponRaises(currency: string)
    ensures var c := Coupon("OOPS", Amount, 0, -500, None, 0, 0);
            var q := QuoteOf(currency, [Line("a", "", 1, 1000, 0, "")], Some(c), 0);
            && CouponRefusal(c, 0) == None
            && q.subtotal == 1000 && q.discount == -500 && q.total == 1500
  {
    var ls := [Line("a", "", 1, 1000, 0, "")];
    assert ls[1..] == [];
    assert Total(Gross, ls) == Gross(ls[0]) + Total(Gross, ls[1..]);
  }

  function LineTotalOf(l: Line): int {
    l.lineTotal
  }

  lemma {:induction false} LineTotalsAddUp(ls: seq<Line>)
    ensures Total(LineTotalOf, Priced(ls)) == Total(Gross, ls)
  {
    if ls != [] {
      assert Priced(ls)[1..] == Priced(ls[1..]);
      LineTotalsAddUp(ls[1..]);
    }
  }

  /**
   What a coupon takes off: nothing if there is none or its kind is not known, its percentage of the subtotal to the
   nearest cent, or its amount as far as the subtotal goes.
   */
  predicate CutOff(discount: int, subtotal: int, coupon: Option<Coupon>) {
    match coupon
    case None => discount == 0
    case Some(c) =>
      match c.kind
      case Unknown => discount == 0
      case Percent =>
        var p := if c.percentOff < 0 then 0 else if c.percentOff > 100 then 100 else c.percentOff;
        -50 < 100 * discount - subtotal * p <= 50
      case Amount => discount <= c.amountOff && discount <= subtotal && (discount == c.amountOff || discount == subtotal)
  }

  lemma DiscountCutsOff(subtotal: int, coupon: Option<Coupon>)
    requires subtotal >= 0
    ensures CutOff(Discount(coupon, subtotal), subtotal, coupon)
  {
    if coupon.Some? {
      PercentOffNearest(subtotal, coupon.value.percentOff);
    }
  }

  /** What each figure of a quote is: the lines' own amounts, the coupon's cut, the tax on the rest, and what is due. */
  lemma QuoteFigures(currency: string, ls: seq<Line>, coupon: Option<Coupon>, taxBps: int)
    requires Sane(ls)
    ensures var q := QuoteOf(currency, ls, coupon, taxBps);
            && |q.lines| == |ls|
            && (forall i :: 0 <= i < |ls| ==> q.lines[i] == ls[i].(lineTotal := ls[i].unitPrice * ls[i].quantity))
            && q.subtotal == Total(LineTotalOf, q.lines)
            && CutOff(q.discount, q.subtotal, coupon)
            && (if taxBps <= 0 then q.tax == 0
                else -5000 < 10_000 * q.tax - (q.subtotal - q.discount) * taxBps <= 5000)
            && q.total == q.subtotal - q.discount + q.tax
            && q.coupon == (if coupon.Some? then coupon.value.code else "")
  {
    QuoteAddsUp(currency, ls, coupon, taxBps);
    LineTotalsAddUp(ls);
    var q := QuoteOf(currency, ls, coupon, taxBps);
    DiscountCutsOff(q.subtotal, coupon);
    TaxBpsNearest(q.subtotal - q.discount, taxBps);
  }

  /** A coupon can be used up to its expiry, and while it has uses left if it has a limit. */
  predicate Usable(c: Coupon, now: int) {
    && (c.expiresAt.Some? ==> now <= c.expiresAt.value)
    && (c.maxUses > 0 ==> c.usedCount < c.maxUses)
  }

  lemma RefusedUnlessUsable(c: Coupon, now: int)
    ensures CouponRefusal(c, now) == None <==> Usable(c, now)
    ensures CouponRefusal(c, now) == Some(CouponExpired) <==> c.expiresAt.Some? && now > c.expiresAt.value
  {
  }

  // ---- signature ---------------------------------------------------------

  function Digits(n: nat): string {
    if n < 10 then [('0' as int + n) as char] else Digits(n / 10) + [('0' as int + n % 10) as char]
  }

  function Decimal(n: int): string {
    if n < 0 then "-" + Digits(-n) else Digits(n)
  }

  /** Different numbers have different digits. */
  lemma {:induction false} DigitsTell(a: nat, b: nat)
    ensures Digits(a) == Digits(b) ==> a == b
    ensures Digits(a) != "" && forall i :: 0 <= i < |Digits(a)| ==> '0' <= Digits(a)[i] <= '9'
    decreases a
  {
    var x, y := Digits(a), Digits(b);
    if a >= 10 {
      DigitsTell(a / 10, b / 10);
    }
    if x == y {
      assert x[|x| - 1] == ('0' as int + a % 10) as char;
      assert y[|y| - 1] == ('0' as int + b % 10) as char;
      if a >= 10 {
        assert b >= 10;
        assert x[..|x| - 1] == Digits(a / 10) && y[..|y| - 1] == Digits(b / 10);
      } else if b >= 10 {
        NoEmptyDigits(b / 10);
      }
    }
  }

  lemma NoEmptyDigits(n: nat)
    ensures |Digits(n)| > 0
  {
  }

  predicate ByProduct(a: Line, b: Line) {
    Below(a.productId, b.productId)
  }

  function SignedLines(ls: seq<Line>): string {
    if ls == [] then ""
    else ls[0].productId + ":" + Decimal(ls[0].quantity) + "@" + Decimal(ls[0].unitPrice) + ";" + SignedLines(ls[1..])
  }

  /** The text the signature hashes: the totals, then the lines in product order. */
  function Preimage(currency: string, ls: seq<Line>, discount: int, tax: int, total: int): string {
    "cur=" + currency + ";disc=" + Decimal(discount) + ";tax=" + Decimal(tax) + ";total=" + Decimal(total) + ";"
    + SignedLines(Sort(ByProduct, ls))
  }

  ghost predicate DistinctProducts(ls: seq<Line>) {
    forall i, j :: 0 <= i < j < |ls| ==> ls[i].productId != ls[j].productId
  }

  lemma ByProductOrders(ls: seq<Line>)
    requires DistinctProducts(ls)
    ensures StrictOrder(ByProduct) && Comparable(ByProduct, ls)
  {
    BelowIsStrictOrder();
  }

  /** Neither the totals nor the signature depend on the order in which lines were collected. */
  lemma QuoteIgnoresLineOrder(currency: string, xs: seq<Line>, ys: seq<Line>, coupon: Option<Coupon>, taxBps: int)
    requires DistinctProducts(xs) && DistinctProducts(ys)
    requires multiset(xs) == multiset(ys)
    ensures var a, b := QuoteOf(currency, xs, coupon, taxBps), QuoteOf(currency, ys, coupon, taxBps);
            a == b.(lines := a.lines) && multiset(a.lines) == multiset(b.lines)
  {
    TotalPermutes(Gross, xs, ys);
    PricedBag(xs, ys);
    var a, b := QuoteOf(currency, xs, coupon, taxBps), QuoteOf(currency, ys, coupon, taxBps);
    SignatureIgnoresOrder(currency, Priced(xs), Priced(ys), a.discount, a.tax, a.total);
  }

  lemma SignatureIgnoresOrder(currency: string, xs: seq<Line>, ys: seq<Line>, discount: int, tax: int, total: int)
    requires DistinctProducts(xs) && DistinctProducts(ys) && multiset(xs) == multiset(ys)
    ensures Preimage(currency, xs, discount, tax, total) == Preimage(currency, ys, discount, tax, total)
  {
    ByProductOrders(xs);
    ByProductOrders(ys);
    SortIgnoresOrder(ByProduct, xs, ys);
  }

  lemma PricedRemoveAt(xs: seq<Line>, i: nat)
    requires i < |xs|
    ensures multiset(Priced(xs)) == multiset(Priced(RemoveAt(xs, i))) + multiset{Priced(xs)[i]}
  {
    BagRemoveAt(Priced(xs), i);
    assert RemoveAt(Priced(xs), i) == Priced(RemoveAt(xs, i));
    assert Priced(xs)[i] in multiset(Priced(xs));
  }

  lemma {:induction false} PricedBag(xs: seq<Line>, ys: seq<Line>)
    requires multiset(xs) == multiset(ys)
    ensures multiset(Priced(xs)) == multiset(Priced(ys))
    decreases |xs|
  {
    assert |multiset(xs)| == |xs| && |multiset(ys)| == |ys|;
    if xs != [] {
      assert xs[0] in multiset(xs);
      var i :| 0 <= i < |ys| && ys[i] == xs[0];
      BagRemoveAt(xs, 0);
      BagRemoveAt(ys, i);
      PricedBag(RemoveAt(xs, 0), RemoveAt(ys, i));
      PricedRemoveAt(xs, 0);
      PricedRemoveAt(ys, i);
    }
  }

  // ---- collecting the lines ----------------------------------------------

  datatype Item = Item(productId: string, quantity: int32)

  datatype Product = Product(title: string, currency: string, units: int, nanos: int, shopId: string)

  /** The exact quantity asked for, over every mention of the product. */
  function Asked(items: seq<Item>, id: string): int {
    if items == [] then 0
    else (if items[0].productId == id then items[0].quantity else 0) + Asked(items[1..], id)
  }

  predicate Mentions(items: seq<Item>, id: string) {
    exists i :: 0 <= i < |items| && items[i].productId == id
  }

  lemma {:induction false} AskedPush(items: seq<Item>, it: Item, id: string)
    ensures Asked(items + [it], id) == Asked(items, id) + (if it.productId == id then it.quantity else 0)
    ensures Mentions(items + [it], id) <==> Mentions(items, id) || it.productId == id
  {
    if items != [] {
      assert (items + [it])[1..] == items[1..] + [it];
      AskedPush(items[1..], it, id);
    }
    if it.productId == id {
      assert (items + [it])[|items|].productId == id;
    }
    if Mentions(items, id) {
      var i :| 0 <= i < |items| && items[i].productId == id;
      assert (items + [it])[i].productId == id;
    }
  }

  function Counted(qty: map<string, int32>, it: Item): map<string, int32> {
    qty[it.productId := Wrap32((if it.productId in qty then qty[it.productId] else 0) + it.quantity)]
  }

  function Quantities(items: seq<Item>): map<string, int32> {
    if items == [] then map[] else Counted(Quantities(items[..|items| - 1]), items[|items| - 1])
  }

  /** Every mentioned product, with its exact quantity wrapped to int32. */
  lemma {:induction false} QuantitiesMeaning(items: seq<Item>, id: string)
    ensures id in Quantities(items) <==> Mentions(items, id)
    ensures id in Quantities(items) ==> Quantities(items)[id] == Wrap32(Asked(items, id))
    ensures id !in Quantities(items) ==> Asked(items, id) == 0
  {
    if items != [] {
      var rest, it := items[..|items| - 1], items[|items| - 1];
      assert items == rest + [it];
      QuantitiesMeaning(rest, id);
      AskedPush(rest, it, id);
      WrapAdd(Asked(rest, id), it.quantity);
    }
  }

  /** Collapses repeated products into one int32 quantity each. */
  method QuantitiesByProduct(items: seq<Item>) returns (r: Result<map<string, int32>, Reason>)
    ensures r == if forall it :: it in items ==> it.quantity > 0 then Ok(Quantities(items)) else Err(BadQuantity)
  {
    var qty: map<string, int32> := map[];
    var i := 0;
    while i < |items|
      invariant 0 <= i <= |items|
      invariant forall it :: it in items[..i] ==> it.quantity > 0
      invariant qty == Quantities(items[..i])
    {
      var it := items[i];
      if it.quantity <= 0 {
        assert it in items;
        return Err(BadQuantity);
      }
      assert items[..i + 1] == items[..i] + [it];
      assert items[..i + 1][..i] == items[..i];
      qty := qty[it.productId := Wrap32((if it.productId in qty then qty[it.productId] else 0) + it.quantity)];
      i := i + 1;
    }
    assert items[..i] == items;
    r := Ok(qty);
  }

  function LineFor(id: string, quantity: int, p: Product, currency: string): Line {
    Line(id, p.title, quantity, FromUnitsNanos(currency, p.units, p.nanos).cents, 0, p.shopId)
  }

  /** Exactly one line a product, in some order. */
  ghost predicate LinesFor(ls: seq<Line>, qty: map<string, int32>, catalog: map<string, Product>, currency: string) {
    && DistinctProducts(ls)
    && (forall l :: l in ls ==> l.productId in qty && l.productId in catalog
                                && l == LineFor(l.productId, qty[l.productId], catalog[l.productId], currency))
    && (forall id :: id in qty ==> exists i :: 0 <= i < |ls| && ls[i].productId == id)
  }

  ghost predicate AllPriceable(qty: map<string, int32>, catalog: map<string, Product>, currency: string) {
    forall id :: id in qty ==> id in catalog && catalog[id].currency == currency
  }

  ghost predicate AllPositive(qty: map<string, int32>) {
    forall id :: id in qty ==> qty[id] > 0
  }

  /** Walks the quantities in whatever order the map yields them. */
  method PriceLines(qty: map<string, int32>, catalog: map<string, Product>, currency: string) returns (r: Result<seq<Line>, Reason>)
    ensures r.Ok? <==> AllPriceable(qty, catalog, currency)
    ensures r.Ok? ==> LinesFor(r.value, qty, catalog, currency)
    ensures r == Err(ProductUnpriceable) ==> exists id :: id in qty && id !in catalog
    ensures r == Err(CurrencyMismatch) ==> exists id :: id in qty && id in catalog && catalog[id].currency != currency
    ensures r.Err? ==> r.reason == ProductUnpriceable || r.reason == CurrencyMismatch
  {
    var lines: seq<Line> := [];
    var left := qty.Keys;
    while left != {}
      invariant left <= qty.Keys
      invariant forall id :: id in qty && id !in left ==> id in catalog && catalog[id].currency == currency
      invariant DistinctProducts(lines)
      invariant forall l :: l in lines ==> l.productId in qty && l.productId !in left && l.productId in catalog
                                           && l == LineFor(l.productId, qty[l.productId], catalog[l.productId], currency)
      invariant forall id :: id in qty && id !in left ==> exists i :: 0 <= i < |lines| && lines[i].productId == id
      decreases left
    {
      var id :| id in left;
      if id !in catalog {
        return Err(ProductUnpriceable);
      }
      if catalog[id].currency != currency {
        return Err(CurrencyMismatch);
      }
      ghost var before := lines;
      lines := lines + [LineFor(id, qty[id], catalog[id], currency)];
      left := left - {id};
      forall other | other in qty && other !in left ensures exists i :: 0 <= i < |lines| && lines[i].productId == other {
        if other == id {
          assert lines[|before|].productId == id;
        } else {
          var i :| 0 <= i < |before| && before[i].productId == other;
          assert lines[i].productId == other;
        }
      }
      assert forall l :: l in before ==> l.productId != id;
    }
    r := Ok(lines);
  }

  /** Any two walks over the same quantities collect the same bag of lines. */
  lemma LinesForUnique(xs: seq<Line>, ys: seq<Line>, qty: map<string, int32>, catalog: map<string, Product>, currency: string)
    requires LinesFor(xs, qty, catalog, currency) && LinesFor(ys, qty, catalog, currency)
    ensures multiset(xs) == multiset(ys)
  {
    forall l ensures multiset(xs)[l] == multiset(ys)[l] {
      LinesForCount(xs, qty, catalog, currency, l);
      LinesForCount(ys, qty, catalog, currency, l);
    }
  }

  lemma LinesForCount(xs: seq<Line>, qty: map<string, int32>, catalog: map<string, Product>, currency: string, l: Line)
    requires LinesFor(xs, qty, catalog, currency)
    ensures multiset(xs)[l] ==
      if l.productId in qty && l.productId in catalog
         && l == LineFor(l.productId, qty[l.productId], catalog[l.productId], currency) then 1 else 0
  {
    assert Distinct(xs);
    DistinctOnce(xs);
    if l.productId in qty && l.productId in catalog
       && l == LineFor(l.productId, qty[l.productId], catalog[l.productId], currency) {
      var i :| 0 <= i < |xs| && xs[i].productId == l.productId;
      assert xs[i] in xs;
      assert xs[i] == l;
    } else {
      assert l !in xs;
    }
  }

  // ---- the whole quote -----------------------------------------------------

  /** What a quote for these quantities is, whatever order the lines came in. */
  ghost predicate IsQuote(q: Quote, qty: map<string, int32>, catalog: map<string, Product>, currency: string,
                          coupon: Option<Coupon>, taxBps: int) {
    exists ls :: LinesFor(ls, qty, catalog, currency) && q == QuoteOf(currency, ls, coupon, taxBps)
  }

  /** Two quotes of the same request agree on every figure, on the signature and on the bag of lines. */
  lemma QuoteIgnoresMapOrder(a: Quote, b: Quote, qty: map<string, int32>, catalog: map<string, Product>, currency: string,
                             coupon: Option<Coupon>, taxBps: int)
    requires IsQuote(a, qty, catalog, currency, coupon, taxBps)
    requires IsQuote(b, qty, catalog, currency, coupon, taxBps)
    ensures a == b.(lines := a.lines) && multiset(a.lines) == multiset(b.lines)
  {
    var xs :| LinesFor(xs, qty, catalog, currency) && a == QuoteOf(currency, xs, coupon, taxBps);
    var ys :| LinesFor(ys, qty, catalog, currency) && b == QuoteOf(currency, ys, coupon, taxBps);
    LinesForUnique(xs, ys, qty, catalog, currency);
    QuoteIgnoresLineOrder(currency, xs, ys, coupon, taxBps);
  }

  /** When a request gets a quote. */
  ghost predicate Quotable(currency: string, items: seq<Item>, catalog: map<string, Product>, catalogUp: bool,
                           coupons: map<string, Coupon>, couponCode: string, now: int) {
    && |currency| == 3 && items != [] && catalogUp
    && (forall it :: it in items ==> it.quantity > 0)
    && AllPriceable(Quantities(items), catalog, currency) && AllPositive(Quantities(items))
    && (couponCode == "" || (couponCode in coupons && CouponRefusal(coupons[couponCode], now) == None))
  }

  /**
   Answers a quote request. catalogUp says whether the catalog call succeeds.
   */
  method QuotePrice(currency: string, items: seq<Item>, catalog: map<string, Product>, catalogUp: bool,
                    coupons: map<string, Coupon>, couponCode: string, taxBps: int, now: int)
    returns (r: Result<Quote, Reason>)
    ensures r.Ok? <==> Quotable(currency, items, catalog, catalogUp, coupons, couponCode, now)
    ensures r.Ok? ==>
      IsQuote(r.value, Quantities(items), catalog, currency,
              if couponCode == "" then None else Some(coupons[couponCode]), taxBps)
  {
    if |currency| != 3 {
      return Err(BadCurrency);
    }
    if items == [] {
      return Err(NoItems);
    }
    var quantities := QuantitiesByProduct(items);
    if quantities.Err? {
      return Err(quantities.reason);
    }
    var qty := quantities.value;
    if !catalogUp {
      return Err(CatalogUnavailable);
    }
    var collected := PriceLines(qty, catalog, currency);
    if collected.Err? {
      return Err(collected.reason);
    }
    var coupon := ResolveCoupon(coupons, couponCode);
    if coupon.Err? {
      return Err(coupon.reason);
    }
    SomethingAsked(items);
    r := PriceCollected(currency, collected.value, qty, catalog, coupon.value, taxBps, now);
  }

  lemma SomethingAsked(items: seq<Item>)
    requires items != []
    ensures Quantities(items) != map[]
  {
    assert items[|items| - 1].productId in Quantities(items);
  }

  method ResolveCoupon(coupons: map<string, Coupon>, code: string) returns (r: Result<Option<Coupon>, Reason>)
    ensures r == if code == "" then Ok(None) else if code in coupons then Ok(Some(coupons[code])) else Err(CouponUnknown)
  {
    if code == "" {
      return Ok(None);
    }
    if code !in coupons {
      return Err(CouponUnknown);
    }
    r := Ok(Some(coupons[code]));
  }

  /** Prices the collected lines in place. */
  method PriceCollected(currency: string, ls: seq<Line>, qty: map<string, int32>, catalog: map<string, Product>,
                        coupon: Option<Coupon>, taxBps: int, now: int)
    returns (r: Result<Quote, Reason>)
    requires LinesFor(ls, qty, catalog, currency) && qty != map[]
    ensures r.Ok? <==> AllPositive(qty) && !(coupon.Some? && CouponRefusal(coupon.value, now).Some?)
    ensures r.Ok? ==> r.value == QuoteOf(currency, ls, coupon, taxBps)
  {
    var lines := new Line[|ls|](i requires 0 <= i < |ls| => ls[i]);
    assert lines[..] == ls;
    PositiveThroughout(ls, qty, catalog, currency);
    r := Price(currency, lines, coupon, taxBps, now);
  }

  /** Price meets a bad quantity exactly when some collected quantity is not positive. */
  lemma PositiveThroughout(ls: seq<Line>, qty: map<string, int32>, catalog: map<string, Product>, currency: string)
    requires LinesFor(ls, qty, catalog, currency)
    ensures FirstBad(ls) == |ls| <==> forall id :: id in qty ==> qty[id] > 0
    ensures |ls| > 0 <==> qty != map[]
  {
    if FirstBad(ls) < |ls| {
      var l := ls[FirstBad(ls)];
      assert l in ls && l.productId in qty;
    } else {
      forall id | id in qty ensures qty[id] > 0 {
        var i :| 0 <= i < |ls| && ls[i].productId == id;
        assert ls[i] in ls;
      }
    }
    if ls != [] {
      assert ls[0] in ls;
    }
  }

  /** When a quote is given, and what each of its lines is, in terms of the request and the catalogue. */
  lemma QuotableMeans(currency: string, items: seq<Item>, catalog: map<string, Product>, catalogUp: bool,
                      coupons: map<string, Coupon>, couponCode: string, now: int)
    ensures Quotable(currency, items, catalog, catalogUp, coupons, couponCode, now) <==>
            && |currency| == 3 && items != [] && catalogUp
            && (forall i :: 0 <= i < |items| ==>
                  && items[i].quantity > 0 && Wrap32(Asked(items, items[i].productId)) > 0
                  && items[i].productId in catalog && catalog[items[i].productId].currency == currency)
            && (couponCode != "" ==> couponCode in coupons && Usable(coupons[couponCode], now))
  {
    var qty := Quantities(items);
    EachItemCounted(items);
    EachCountAsked(items);
    assert (forall it :: it in items ==> it.quantity > 0) <==> forall i :: 0 <= i < |items| ==> items[i].quantity > 0;
    assert AllPriceable(qty, catalog, currency) <==>
           forall i :: 0 <= i < |items| ==> items[i].productId in catalog && catalog[items[i].productId].currency == currency;
    assert AllPositive(qty) <==> forall i :: 0 <= i < |items| ==> Wrap32(Asked(items, items[i].productId)) > 0;
    if couponCode in coupons {
      RefusedUnlessUsable(coupons[couponCode], now);
    }
  }

  lemma EachItemCounted(items: seq<Item>)
    ensures forall i :: 0 <= i < |items| ==>
              items[i].productId in Quantities(items)
              && Quantities(items)[items[i].productId] == Wrap32(Asked(items, items[i].productId))
  {
    forall i | 0 <= i < |items|
      ensures items[i].productId in Quantities(items)
              && Quantities(items)[items[i].productId] == Wrap32(Asked(items, items[i].productId))
    {
      QuantitiesMeaning(items, items[i].productId);
    }
  }

  lemma EachCountAsked(items: seq<Item>)
    ensures forall id :: id in Quantities(items) ==> exists i :: 0 <= i < |items| && items[i].productId == id
  {
    forall id | id in Quantities(items) ensures exists i :: 0 <= i < |items| && items[i].productId == id {
      QuantitiesMeaning(items, id);
    }
  }

  lemma QuotedLine(q: Quote, items: seq<Item>, catalog: map<string, Product>, currency: string, coupon: Option<Coupon>,
                   taxBps: int, i: nat)
    requires IsQuote(q, Quantities(items), catalog, currency, coupon, taxBps) && i < |q.lines|
    ensures var l := q.lines[i];
            && Mentions(items, l.productId) && l.quantity == Wrap32(Asked(items, l.productId))
            && l.productId in catalog
            && var p := catalog[l.productId];
               && l.title == p.title && l.shopId == p.shopId
               && l.unitPrice == p.units * 100 + GoDiv(p.nanos, 10_000_000)
               && l.lineTotal == l.unitPrice * l.quantity
  {
    var ls: seq<Line> :| LinesFor(ls, Quantities(items), catalog, currency) && q == QuoteOf(currency, ls, coupon, taxBps);
    assert ls[i] in ls;
    QuantitiesMeaning(items, ls[i].productId);
  }

  /** How a quote's figures hang together under a coupon and a tax rate. */
  ghost predicate Adds(q: Quote, coupon: Option<Coupon>, taxBps: int) {
    && q.subtotal == Total(LineTotalOf, q.lines)
    && CutOff(q.discount, q.subtotal, coupon)
    && (if taxBps <= 0 then q.tax == 0 else -5000 < 10_000 * q.tax - (q.subtotal - q.discount) * taxBps <= 5000)
    && q.total == q.subtotal - q.discount + q.tax
  }

  lemma SaneBeforePricing(ls: seq<Line>)
    requires Sane(Priced(ls))
    ensures Sane(ls)
  {
    forall l | l in ls ensures l.unitPrice >= 0 && l.quantity > 0 {
      var i :| 0 <= i < |ls| && ls[i] == l;
      assert Priced(ls)[i] in Priced(ls);
    }
  }

  lemma QuoteAdds(currency: string, ls: seq<Line>, coupon: Option<Coupon>, taxBps: int)
    requires Sane(ls)
    ensures Adds(QuoteOf(currency, ls, coupon, taxBps), coupon, taxBps)
  {
    QuoteFigures(currency, ls, coupon, taxBps);
  }

  lemma QuoteOfRequestAdds(q: Quote, qty: map<string, int32>, catalog: map<string, Product>, currency: string,
                           coupon: Option<Coupon>, taxBps: int)
    requires IsQuote(q, qty, catalog, currency, coupon, taxBps) && Sane(q.lines)
    ensures Adds(q, coupon, taxBps)
  {
    var ls: seq<Line> :| LinesFor(ls, qty, catalog, currency) && q == QuoteOf(currency, ls, coupon, taxBps);
    SaneBeforePricing(ls);
    QuoteAdds(currency, ls, coupon, taxBps);
  }

  /** A quantity is what was asked for exactly when the exact sum still fits int32. */
  lemma QuantityExact(items: seq<Item>, id: string)
    requires forall it :: it in items ==> it.quantity > 0
    ensures Wrap32(Asked(items, id)) == Asked(items, id) <==> Asked(items, id) <= MAX32
  {
    AskedNonNegative(items, id);
  }

  lemma {:induction false} AskedNonNegative(items: seq<Item>, id: string)
    requires forall it :: it in items ==> it.quantity > 0
    ensures Asked(items, id) >= 0
    ensures Asked(items, id) > 0 <==> Mentions(items, id)
  {
    if items != [] {
      AskedNonNegative(items[1..], id);
      assert items[0] in items;
      if Mentions(items[1..], id) {
        var i :| 0 <= i < |items[1..]| && items[1..][i].productId == id;
        assert items[i + 1].productId == id;
      }
      if Mentions(items, id) && items[0].productId != id {
        var i :| 0 <= i < |items| && items[i].productId == id;
        assert items[1..][i - 1].productId == id;
      }
    }
  }

  /** A product's collected quantity is positive, and so priced, exactly when the sum modulo 2^32 lies in 1 to 2^31-1. */
  lemma PricedAfterWrap(items: seq<Item>, id: string)
    requires (forall it :: it in items ==> it.quantity > 0) && Mentions(items, id)
    ensures id in Quantities(items)
    ensures Quantities(items)[id] > 0 <==> 1 <= Asked(items, id) % 0x1_0000_0000 <= MAX32
    ensures Quantities(items)[id] > 0 ==> Quantities(items)[id] == Asked(items, id) % 0x1_0000_0000
  {
    QuantitiesMeaning(items, id);
    AskedNonNegative(items, id);
    WrapIsModulo(Asked(items, id));
  }

  lemma WrapIsModulo(x: nat)
    ensures Wrap32(x) == if x % 0x1_0000_0000 <= MAX32 then x % 0x1_0000_0000 else x % 0x1_0000_0000 - 0x1_0000_0000
  {
    ModShift(x + 0x8000_0000, x / 0x1_0000_0000, 0x1_0000_0000);
    assert x - x / 0x1_0000_0000 * 0x1_0000_0000 == x % 0x1_0000_0000;
  }

  /** The wrap shows: two lines of 2^31-1 and 3 units collapse into 2 - 2^31 units, and no catalogue gets them a quote. */
  lemma QuantityWraps(currency: string, catalog: map<string, Product>, catalogUp: bool, coupons: map<string, Coupon>,
                      couponCode: string, now: int)
    ensures var items := [Item("a", MAX32), Item("a", 3)];
            && Asked(items, "a") == MAX32 + 3 && Wrap32(Asked(items, "a")) == MIN32 + 2
            && !Quotable(currency, items, catalog, catalogUp, coupons, couponCode, now)
  {
    var items := [Item("a", MAX32), Item("a", 3)];
    assert items[1..] == [Item("a", 3)];
    assert items[1..][1..] == [];
    assert Asked(items[1..], "a") == 3 + Asked(items[1..][1..], "a");
    assert items[0].productId == "a";
    QuantitiesMeaning(items, "a");
  }

  const WRAPS_TO_ONE := [Item("a", MAX32), Item("a", MAX32), Item("a", 3)]

  lemma WrapsToOne()
    ensures Asked(WRAPS_TO_ONE, "a") == 0x1_0000_0001
    ensures Quantities(WRAPS_TO_ONE) == map["a" := 1]
  {
    var items := WRAPS_TO_ONE;
    assert items[1..] == [Item("a", MAX32), Item("a", 3)] && items[1..][1..] == [Item("a", 3)] && items[1..][1..][1..] == [];
    assert Asked(items[1..][1..], "a") == 3 + Asked(items[1..][1..][1..], "a");
    assert items[0].productId == "a";
    PricedAfterWrap(items, "a");
    OnlyMentioned(items, Quantities(items));
  }

  /** Three lines of 2^31-1, 2^31-1 and 3 units, 2^32 + 1 in all, are quoted, and as a single unit. */
  lemma QuantityMispriced(currency: string, p: Product, taxBps: int, q: Quote)
    requires |currency| == 3 && p.currency == currency
    ensures Asked(WRAPS_TO_ONE, "a") == 0x1_0000_0001
    ensures Quotable(currency, WRAPS_TO_ONE, map["a" := p], true, map[], "", 0)
    ensures IsQuote(q, Quantities(WRAPS_TO_ONE), map["a" := p], currency, None, taxBps) ==>
              q.subtotal == FromUnitsNanos(currency, p.units, p.nanos).cents
  {
    WrapsToOne();
    if IsQuote(q, map["a" := 1], map["a" := p], currency, None, taxBps) {
      var ls :| LinesFor(ls, map["a" := 1], map["a" := p], currency) && q == QuoteOf(currency, ls, None, taxBps);
      OneProductOneLine(ls, map["a" := 1], "a", p, currency);
    }
  }

  lemma OnlyMentioned(items: seq<Item>, qty: map<string, int32>)
    requires qty == Quantities(items) && forall it :: it in items ==> it.productId == "a"
    ensures forall id :: id in qty ==> id == "a"
  {
    forall id | id in qty ensures id == "a" {
      QuantitiesMeaning(items, id);
    }
  }

  lemma OneProductOneLine(ls: seq<Line>, qty: map<string, int32>, id: string, p: Product, currency: string)
    requires id in qty && (forall k :: k in qty ==> k == id) && LinesFor(ls, qty, map[id := p], currency)
    ensures ls == [LineFor(id, qty[id], p, currency)]
    ensures Total(Gross, ls) == FromUnitsNanos(currency, p.units, p.nanos).cents * qty[id]
  {
    var i :| 0 <= i < |ls| && ls[i].productId == id;
    assert |ls| > 1 ==> ls[0].productId != ls[1].productId;
    assert forall j :: 0 <= j < |ls| ==> ls[j] in ls && ls[j].productId == id;
    assert ls[1..] == [];
  }
}
