/** What the quote signature is for: a quote that differs in any signed figure or line has another text to hash. */
module Signature {
  import opened Base
  import opened Pricing
  import opened Sorting

  /** What a signature covers of a line. */
  datatype Signed = Signed(productId: string, quantity: int, unitPrice: int)

  function Covered(ls: seq<Line>): (r: seq<Signed>)
    ensures |r| == |ls|
    ensures forall i :: 0 <= i < |ls| ==> r[i] == Signed(ls[i].productId, ls[i].quantity, ls[i].unitPrice)
  {
    seq(|ls|, i requires 0 <= i < |ls| => Signed(ls[i].productId, ls[i].quantity, ls[i].unitPrice))
  }

  /** A decimal holds digits, and a sign if the number is negative. */
  lemma DecimalTells(a: int, b: int)
    ensures Decimal(a) == Decimal(b) ==> a == b
    ensures forall c :: c in Decimal(a) ==> c == '-' || '0' <= c <= '9'
  {
    DigitsTell(if a < 0 then -a else a, if b < 0 then -b else b);
    DigitsTell(if b < 0 then -b else b, if a < 0 then -a else a);
    if a < 0 {
      assert Decimal(a)[0] == '-' && Decimal(a)[1..] == Digits(-a);
    }
    if b < 0 {
      assert Decimal(b)[0] == '-' && Decimal(b)[1..] == Digits(-b);
    }
  }

  /** A number followed by a mark that is no part of it. */
  lemma NumberThen(mark: char, a: int, x: string, b: int, y: string)
    requires mark == ';' || mark == '@' || mark == ':'
    requires Decimal(a) + [mark] + x == Decimal(b) + [mark] + y
    ensures a == b && x == y
  {
    DecimalTells(a, b);
    DecimalTells(b, a);
    SplitAt(mark, Decimal(a), x, Decimal(b), y);
  }

  /** A field's name, value and what follows the next semicolon, taken from the front. */
  lemma FieldText(front: string, sep: string, name: string, v: string, rest: string)
    requires sep == [';'] + name
    ensures front + sep + v + ([';'] + rest) == front + ([';'] + (name + (v + [';'] + rest)))
  {
    assert v + ([';'] + rest) == v + [';'] + rest;
    assert front + sep + v + ([';'] + rest) == front + sep + (v + [';'] + rest);
    assert front + ([';'] + name) + (v + [';'] + rest) == front + ([';'] + (name + (v + [';'] + rest)));
  }

  lemma LastMark(front: string, v: string, rest: string)
    ensures front + v + ";" + rest == front + v + ([';'] + rest)
  {
  }

  /** One line's text: id, quantity and price, each up to its mark, then the rest. */
  lemma LineText(id: string, q: string, p: string, rest: string)
    ensures id + ":" + q + "@" + p + ";" + rest == id + [':'] + (q + ['@'] + (p + [';'] + rest))
  {
    LastMark(id + ":" + q + "@", p, rest);
    assert id + ":" + q + "@" + p + ([';'] + rest) == id + ":" + q + "@" + (p + [';'] + rest);
    assert id + ":" + q + "@" + (p + [';'] + rest) == id + ":" + (q + ['@'] + (p + [';'] + rest));
  }

  /** One line's text, then the rest. */
  lemma LineThen(k: Line, x: string, l: Line, y: string)
    requires ':' !in k.productId && ':' !in l.productId
    requires k.productId + ":" + Decimal(k.quantity) + "@" + Decimal(k.unitPrice) + ";" + x ==
             l.productId + ":" + Decimal(l.quantity) + "@" + Decimal(l.unitPrice) + ";" + y
    ensures k.productId == l.productId && k.quantity == l.quantity && k.unitPrice == l.unitPrice && x == y
  {
    LineText(k.productId, Decimal(k.quantity), Decimal(k.unitPrice), x);
    LineText(l.productId, Decimal(l.quantity), Decimal(l.unitPrice), y);
    LineParts(k.productId, k.quantity, k.unitPrice, x, l.productId, l.quantity, l.unitPrice, y);
  }

  lemma LineParts(id: string, q: int, p: int, x: string, id': string, q': int, p': int, y: string)
    requires ':' !in id && ':' !in id'
    requires id + [':'] + (Decimal(q) + ['@'] + (Decimal(p) + [';'] + x)) == id' + [':'] + (Decimal(q') + ['@'] + (Decimal(p') + [';'] + y))
    ensures id == id' && q == q' && p == p' && x == y
  {
    SplitAt(':', id, Decimal(q) + ['@'] + (Decimal(p) + [';'] + x), id', Decimal(q') + ['@'] + (Decimal(p') + [';'] + y));
    NumberThen('@', q, Decimal(p) + [';'] + x, q', Decimal(p') + [';'] + y);
    NumberThen(';', p, x, p', y);
  }

  lemma {:induction false} LinesTell(xs: seq<Line>, ys: seq<Line>)
    requires forall i :: 0 <= i < |xs| ==> ':' !in xs[i].productId
    requires forall i :: 0 <= i < |ys| ==> ':' !in ys[i].productId
    requires SignedLines(xs) == SignedLines(ys)
    ensures Covered(xs) == Covered(ys)
  {
    if xs != [] && ys != [] {
      LineThen(xs[0], SignedLines(xs[1..]), ys[0], SignedLines(ys[1..]));
      LinesTell(xs[1..], ys[1..]);
      CoveredFirst(xs);
      CoveredFirst(ys);
    } else {
      NoLinesNoText(xs);
      NoLinesNoText(ys);
    }
  }

  lemma CoveredFirst(ls: seq<Line>)
    requires ls != []
    ensures Covered(ls) == [Signed(ls[0].productId, ls[0].quantity, ls[0].unitPrice)] + Covered(ls[1..])
  {
  }

  lemma NoLinesNoText(ls: seq<Line>)
    ensures SignedLines(ls) == "" <==> ls == []
  {
  }

  /** The figures in front of the lines, one field after the other. */
  lemma FiguresText(c: string, d: string, t: string, s: string, x: string)
    ensures "cur=" + c + ";disc=" + d + ";tax=" + t + ";total=" + s + ";" + x ==
            "cur=" + (c + [';'] + ("disc=" + (d + [';'] + ("tax=" + (t + [';'] + ("total=" + (s + [';'] + x)))))))
  {
    var z := "total=" + (s + [';'] + x);
    var y := "tax=" + (t + [';'] + z);
    var w := "disc=" + (d + [';'] + y);
    var disc := "cur=" + c + ";disc=" + d;
    var tax := disc + ";tax=" + t;
    LastMark(tax + ";total=", s, x);
    FieldText(tax, ";total=", "total=", s, x);
    FieldText(disc, ";tax=", "tax=", t, z);
    FieldText("cur=" + c, ";disc=", "disc=", d, y);
    Behind("cur=", c, w);
  }

  lemma Behind(name: string, v: string, rest: string)
    ensures name + v + ([';'] + rest) == name + (v + [';'] + rest)
  {
  }

  lemma NamedField(name: string, x: string, y: string)
    requires name + x == name + y
    ensures x == y
  {
    assert (name + x)[|name|..] == x && (name + y)[|name|..] == y;
  }

  lemma FiguresTell(c: string, d: int, t: int, s: int, x: string, c': string, d': int, t': int, s': int, x': string)
    requires ';' !in c && ';' !in c'
    requires "cur=" + c + ";disc=" + Decimal(d) + ";tax=" + Decimal(t) + ";total=" + Decimal(s) + ";" + x ==
             "cur=" + c' + ";disc=" + Decimal(d') + ";tax=" + Decimal(t') + ";total=" + Decimal(s') + ";" + x'
    ensures c == c' && d == d' && t == t' && s == s' && x == x'
  {
    FiguresText(c, Decimal(d), Decimal(t), Decimal(s), x);
    FiguresText(c', Decimal(d'), Decimal(t'), Decimal(s'), x');
    var z, z' := "total=" + (Decimal(s) + [';'] + x), "total=" + (Decimal(s') + [';'] + x');
    FrontFiguresTell(c, d, t, z, c', d', t', z');
    NamedField("total=", Decimal(s) + [';'] + x, Decimal(s') + [';'] + x');
    NumberThen(';', s, x, s', x');
  }

  lemma FrontFiguresTell(c: string, d: int, t: int, z: string, c': string, d': int, t': int, z': string)
    requires ';' !in c && ';' !in c'
    requires "cur=" + (c + [';'] + ("disc=" + (Decimal(d) + [';'] + ("tax=" + (Decimal(t) + [';'] + z))))) ==
             "cur=" + (c' + [';'] + ("disc=" + (Decimal(d') + [';'] + ("tax=" + (Decimal(t') + [';'] + z')))))
    ensures c == c' && d == d' && t == t' && z == z'
  {
    var y, y' := "tax=" + (Decimal(t) + [';'] + z), "tax=" + (Decimal(t') + [';'] + z');
    var w, w' := "disc=" + (Decimal(d) + [';'] + y), "disc=" + (Decimal(d') + [';'] + y');
    NamedField("cur=", c + [';'] + w, c' + [';'] + w');
    SplitAt(';', c, w, c', w');
    NamedField("disc=", Decimal(d) + [';'] + y, Decimal(d') + [';'] + y');
    NumberThen(';', d, y, d', y');
    NamedField("tax=", Decimal(t) + [';'] + z, Decimal(t') + [';'] + z');
    NumberThen(';', t, z, t', z');
  }

  /**
   Two quotes with one signature text agree on currency, discount, tax, total and, product by product, on quantity
   and unit price, as long as no currency holds a semicolon and no product id a colon.
   */
  lemma SignatureTells(currency: string, xs: seq<Line>, discount: int, tax: int, total: int,
                       currency': string, ys: seq<Line>, discount': int, tax': int, total': int)
    requires ';' !in currency && ';' !in currency'
    requires forall l :: l in xs || l in ys ==> ':' !in l.productId
    requires Preimage(currency, xs, discount, tax, total) == Preimage(currency', ys, discount', tax', total')
    ensures currency == currency' && discount == discount' && tax == tax' && total == total'
    ensures Covered(Sort(ByProduct, xs)) == Covered(Sort(ByProduct, ys))
  {
    FiguresTell(currency, discount, tax, total, SignedLines(Sort(ByProduct, xs)),
                currency', discount', tax', total', SignedLines(Sort(ByProduct, ys)));
    SortPermutes(ByProduct, xs);
    SortPermutes(ByProduct, ys);
    SameMembers(Sort(ByProduct, xs), xs);
    SameMembers(Sort(ByProduct, ys), ys);
    LinesTell(Sort(ByProduct, xs), Sort(ByProduct, ys));
  }
}
