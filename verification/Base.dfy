/** Shared value types and the parts of Go's arithmetic the services rely on. */
module Base {

  datatype Option<+T> = None | Some(value: T)

  datatype Result<+T, +E> = Ok(value: T) | Err(reason: E)

  /** Go's integer division truncates toward zero. */
  function GoDiv(a: int, b: int): (q: int)
    requires b > 0
    ensures a >= 0 ==> q == a / b
    ensures -b < a - b * q < b
    ensures a >= 0 ==> a - b * q >= 0
    ensures a <= 0 ==> a - b * q <= 0
  {
    if a >= 0 then a / b else -((-a) / b)
  }

  /** Go's remainder takes the sign of the dividend. */
  function GoMod(a: int, b: int): (r: int)
    requires b > 0
    ensures a == b * GoDiv(a, b) + r
    ensures -b < r < b
  {
    a - b * GoDiv(a, b)
  }

  const MIN32: int := -0x8000_0000
  const MAX32: int := 0x7FFF_FFFF

  type int32 = x: int | -0x8000_0000 <= x <= 0x7FFF_FFFF

  /** The value an int32 variable holds after being assigned x. */
  function Wrap32(x: int): (w: int32)
    ensures w == x <==> MIN32 <= x <= MAX32
  {
    (x + 0x8000_0000) % 0x1_0000_0000 - 0x8000_0000
  }

  /** Wrapping before adding does not change the wrapped sum. */
  lemma WrapAdd(x: int, y: int)
    ensures Wrap32(Wrap32(x) + y) == Wrap32(x + y)
  {
    var k := (x + 0x8000_0000) / 0x1_0000_0000;
    assert Wrap32(x) + y + 0x8000_0000 == x + y + 0x8000_0000 - k * 0x1_0000_0000;
    ModShift(x + y + 0x8000_0000, k, 0x1_0000_0000);
  }

  lemma ModShift(a: int, k: int, m: int)
    requires m == 0x1_0000_0000
    ensures (a - k * m) % m == a % m
  {
    var q := a / m;
    assert a - k * m == (q - k) * m + a % m;
  }

  /** The sum of f over xs. */
  function Total<T>(f: T -> int, xs: seq<T>): (t: int) {
    if xs == [] then 0 else f(xs[0]) + Total(f, xs[1..])
  }

  lemma {:induction false} TotalAppend<T>(f: T -> int, xs: seq<T>, ys: seq<T>)
    ensures Total(f, xs + ys) == Total(f, xs) + Total(f, ys)
  {
    if xs == [] {
      assert xs + ys == ys;
    } else {
      assert (xs + ys)[1..] == xs[1..] + ys;
      TotalAppend(f, xs[1..], ys);
    }
  }

  lemma TotalPush<T>(f: T -> int, xs: seq<T>, x: T)
    ensures Total(f, xs + [x]) == Total(f, xs) + f(x)
  {
    TotalAppend(f, xs, [x]);
  }

  /** Replacing one element moves the sum by the difference. */
  lemma {:induction false} TotalUpdate<T>(f: T -> int, xs: seq<T>, i: nat, x: T)
    requires i < |xs|
    ensures Total(f, xs[i := x]) == Total(f, xs) - f(xs[i]) + f(x)
  {
    if i > 0 {
      assert xs[i := x][1..] == xs[1..][i - 1 := x];
      TotalUpdate(f, xs[1..], i - 1, x);
    } else {
      assert xs[0 := x][1..] == xs[1..];
    }
  }

  lemma {:induction false} TotalNonNegative<T>(f: T -> int, xs: seq<T>)
    requires forall x :: x in xs ==> f(x) >= 0
    ensures Total(f, xs) >= 0
    ensures forall x :: x in xs ==> f(x) <= Total(f, xs)
  {
    if xs != [] {
      TotalNonNegative(f, xs[1..]);
      assert xs == [xs[0]] + xs[1..];
    }
  }

  /** Texts that agree up to and after a character neither starts with agree in both parts. */
  lemma SplitAt(c: char, a: string, x: string, b: string, y: string)
    requires c !in a && c !in b && a + [c] + x == b + [c] + y
    ensures a == b && x == y
  {
    var s := a + [c] + x;
    FirstAt(c, a, x, s);
    FirstAt(c, b, y, s);
  }

  lemma FirstAt(c: char, a: string, x: string, s: string)
    requires c !in a && s == a + [c] + x
    ensures |a| < |s| && s[|a|] == c && a == s[..|a|] && x == s[|a| + 1..]
    ensures forall i :: 0 <= i < |a| ==> s[i] != c
  {
    forall i | 0 <= i < |a| ensures s[i] != c {
      assert s[i] == a[i] && a[i] in a;
    }
  }

  function RemoveAt<T>(xs: seq<T>, i: nat): seq<T>
    requires i < |xs|
  {
    xs[..i] + xs[i + 1..]
  }

  lemma {:induction false} TotalRemoveAt<T>(f: T -> int, xs: seq<T>, i: nat)
    requires i < |xs|
    ensures Total(f, xs) == f(xs[i]) + Total(f, RemoveAt(xs, i))
  {
    if i == 0 {
      assert RemoveAt(xs, 0) == xs[1..];
    } else {
      TotalRemoveAt(f, xs[1..], i - 1);
      assert RemoveAt(xs, i) == [xs[0]] + RemoveAt(xs[1..], i - 1);
    }
  }

  lemma BagRemoveAt<T>(xs: seq<T>, i: nat)
    requires i < |xs|
    ensures multiset(RemoveAt(xs, i)) == multiset(xs) - multiset{xs[i]}
  {
    assert xs == xs[..i] + ([xs[i]] + xs[i + 1..]);
    assert multiset(xs) == multiset(xs[..i]) + (multiset{xs[i]} + multiset(xs[i + 1..]));
  }

  /** A sum does not depend on the order of its terms. */
  lemma {:induction false} TotalPermutes<T>(f: T -> int, xs: seq<T>, ys: seq<T>)
    requires multiset(xs) == multiset(ys)
    ensures Total(f, xs) == Total(f, ys)
    decreases |xs|
  {
    assert |multiset(xs)| == |xs| && |multiset(ys)| == |ys|;
    if xs != [] {
      assert xs[0] in multiset(xs);
      var i :| 0 <= i < |ys| && ys[i] == xs[0];
      BagRemoveAt(xs, 0);
      BagRemoveAt(ys, i);
      TotalPermutes(f, RemoveAt(xs, 0), RemoveAt(ys, i));
      TotalRemoveAt(f, xs, 0);
      TotalRemoveAt(f, ys, i);
    }
  }
}
