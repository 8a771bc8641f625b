/**
 Page tokens: a timestamp and an id as text, in base64url.

 Go strings are byte strings; here they are strings whose characters stay below 256. The token's comment in
 the source speaks of unix nanoseconds, but the code writes RFC 3339 text, and so does this.
 */
module Cursor {
  import opened Base

  predicate Bytes(s: string) {
    forall i :: 0 <= i < |s| ==> s[i] as int < 256
  }

  // ---- base64url without padding (RFC 4648, section 5) -----------------------------------

  function Letter(v: int): char
    requires 0 <= v < 64
  {
    if v < 26 then ('A' as int + v) as char
    else if v < 52 then ('a' as int + v - 26) as char
    else if v < 62 then ('0' as int + v - 52) as char
    else if v == 62 then '-' else '_'
  }

  function Sextet(c: char): (r: Option<int>)
    ensures r.Some? ==> 0 <= r.value < 64
  {
    if 'A' <= c <= 'Z' then Some(c as int - 'A' as int)
    else if 'a' <= c <= 'z' then Some(c as int - 'a' as int + 26)
    else if '0' <= c <= '9' then Some(c as int - '0' as int + 52)
    else if c == '-' then Some(62) else if c == '_' then Some(63) else None
  }

  /** Up to three bytes as one letter more. */
  function EncodeQuantum(s: string): (t: string)
    requires Bytes(s) && 1 <= |s| <= 3
    ensures |t| == |s| + 1
  {
    var a := s[0] as int;
    if |s| == 1 then [Letter(a / 4), Letter(a % 4 * 16)]
    else
      var b := s[1] as int;
      if |s| == 2 then [Letter(a / 4), Letter(a % 4 * 16 + b / 16), Letter(b % 16 * 4)]
      else
        var c := s[2] as int;
        [Letter(a / 4), Letter(a % 4 * 16 + b / 16), Letter(b % 16 * 4 + c / 64), Letter(c % 64)]
  }

  function Encode(s: string): string
    requires Bytes(s)
  {
    if s == "" then "" else if |s| <= 3 then EncodeQuantum(s) else EncodeQuantum(s[..3]) + Encode(s[3..])
  }

  function First(x: int, y: int): (r: int)
    requires 0 <= x < 64 && 0 <= y < 64
    ensures 0 <= r < 256
  {
    x * 4 + y / 16
  }

  function Second(y: int, z: int): (r: int)
    requires 0 <= y < 64 && 0 <= z < 64
    ensures 0 <= r < 256
  {
    y % 16 * 16 + z / 4
  }

  function Third(z: int, u: int): (r: int)
    requires 0 <= z < 64 && 0 <= u < 64
    ensures 0 <= r < 256
  {
    z % 4 * 64 + u
  }

  /** A quantum of two or three letters is short, of one is corrupt. Trailing bits are not checked. */
  function DecodeQuantum(t: string): (r: Option<string>)
    requires 1 <= |t| <= 4
    ensures r.Some? ==> Bytes(r.value)
  {
    if |t| == 1 then None
    else
      var x, y := Sextet(t[0]), Sextet(t[1]);
      if x == None || y == None then None
      else if |t| == 2 then Some([First(x.value, y.value) as char])
      else
        var z := Sextet(t[2]);
        if z == None then None
        else if |t| == 3 then Some([First(x.value, y.value) as char, Second(y.value, z.value) as char])
        else
          var u := Sextet(t[3]);
          if u == None then None
          else Some([First(x.value, y.value) as char, Second(y.value, z.value) as char, Third(z.value, u.value) as char])
  }

  function DecodeQuanta(t: string): (r: Option<string>)
    ensures r.Some? ==> Bytes(r.value)
  {
    if t == "" then Some("")
    else if |t| <= 4 then DecodeQuantum(t)
    else
      var front, rest := DecodeQuantum(t[..4]), DecodeQuanta(t[4..]);
      if front == None || rest == None then None else Some(front.value + rest.value)
  }

  /** The decoder skips line breaks. */
  function WithoutBreaks(t: string): string {
    if t == "" then "" else (if t[0] == '\r' || t[0] == '\n' then "" else [t[0]]) + WithoutBreaks(t[1..])
  }

  function Decode(t: string): (r: Option<string>)
    ensures r.Some? ==> Bytes(r.value)
  {
    DecodeQuanta(WithoutBreaks(t))
  }

  lemma LetterSextet(v: int)
    requires 0 <= v < 64
    ensures Sextet(Letter(v)) == Some(v)
    ensures Letter(v) != '\r' && Letter(v) != '\n'
  {
  }

  lemma {:induction false} NoBreaks(front: string, rest: string)
    requires forall i :: 0 <= i < |front| ==> front[i] != '\r' && front[i] != '\n'
    ensures WithoutBreaks(front + rest) == front + WithoutBreaks(rest)
    decreases |front|
  {
    if front == "" {
      assert front + rest == rest;
    } else {
      assert (front + rest)[1..] == front[1..] + rest;
      NoBreaks(front[1..], rest);
      assert front == [front[0]] + front[1..];
    }
  }

  lemma QuantumLetters(s: string)
    requires Bytes(s) && 1 <= |s| <= 3
    ensures forall i :: 0 <= i <= |s| ==> EncodeQuantum(s)[i] != '\r' && EncodeQuantum(s)[i] != '\n'
  {
    forall v | 0 <= v < 64 ensures Letter(v) != '\r' && Letter(v) != '\n' {
      LetterSextet(v);
    }
  }

  lemma {:induction false} EncodedLetters(s: string)
    requires Bytes(s)
    ensures WithoutBreaks(Encode(s)) == Encode(s)
    ensures s != "" ==> Encode(s) != ""
    decreases |s|
  {
    if 0 < |s| <= 3 {
      QuantumLetters(s);
      NoBreaks(EncodeQuantum(s), "");
      assert EncodeQuantum(s) + "" == EncodeQuantum(s);
    } else if s != "" {
      QuantumLetters(s[..3]);
      EncodedLetters(s[3..]);
      NoBreaks(EncodeQuantum(s[..3]), Encode(s[3..]));
    }
  }

  lemma QuantumOfOne(s: string)
    requires Bytes(s) && |s| == 1
    ensures DecodeQuantum(EncodeQuantum(s)) == Some(s)
  {
    var a := s[0] as int;
    LetterSextet(a / 4);
    LetterSextet(a % 4 * 16);
    assert First(a / 4, a % 4 * 16) == a;
    assert s == [a as char];
  }

  lemma QuantumOfTwo(s: string)
    requires Bytes(s) && |s| == 2
    ensures DecodeQuantum(EncodeQuantum(s)) == Some(s)
  {
    var a, b := s[0] as int, s[1] as int;
    var y := a % 4 * 16 + b / 16;
    LetterSextet(a / 4);
    LetterSextet(y);
    LetterSextet(b % 16 * 4);
    assert First(a / 4, y) == a && Second(y, b % 16 * 4) == b;
    assert s == [a as char, b as char];
  }

  lemma QuantumOfThree(s: string)
    requires Bytes(s) && |s| == 3
    ensures DecodeQuantum(EncodeQuantum(s)) == Some(s)
  {
    var a, b, c := s[0] as int, s[1] as int, s[2] as int;
    var y, z := a % 4 * 16 + b / 16, b % 16 * 4 + c / 64;
    LetterSextet(a / 4);
    LetterSextet(y);
    LetterSextet(z);
    LetterSextet(c % 64);
    assert First(a / 4, y) == a && Second(y, z) == b && Third(z, c % 64) == c;
    assert s == [a as char, b as char, c as char];
  }

  lemma QuantumRoundTrip(s: string)
    requires Bytes(s) && 1 <= |s| <= 3
    ensures DecodeQuantum(EncodeQuantum(s)) == Some(s)
  {
    if |s| == 1 {
      QuantumOfOne(s);
    } else if |s| == 2 {
      QuantumOfTwo(s);
    } else {
      QuantumOfThree(s);
    }
  }

  /** Any byte string survives. */
  lemma {:induction false} DecodeEncode(s: string)
    requires Bytes(s)
    ensures DecodeQuanta(Encode(s)) == Some(s)
    decreases |s|
  {
    if 0 < |s| <= 3 {
      QuantumRoundTrip(s);
    } else if s != "" {
      var front, rest := EncodeQuantum(s[..3]), Encode(s[3..]);
      QuantumRoundTrip(s[..3]);
      DecodeEncode(s[3..]);
      EncodedLetters(s[3..]);
      assert (front + rest)[..4] == front && (front + rest)[4..] == rest;
      assert s == s[..3] + s[3..];
    }
  }

  /** The alphabet of RFC 4648, section 5. */
  lemma Alphabet()
    ensures forall v :: 0 <= v < 26 ==> Letter(v) == "ABCDEFGHIJKLMNOPQRSTUVWXYZ"[v]
    ensures forall v :: 0 <= v < 26 ==> Letter(26 + v) == "abcdefghijklmnopqrstuvwxyz"[v]
    ensures forall v :: 0 <= v < 12 ==> Letter(52 + v) == "0123456789-_"[v]
  {
  }

  /** Texts of its section 10, without their padding. */
  lemma EncodeVectors()
    ensures Encode("f") == "Zg" && Encode("fo") == "Zm8" && Encode("foo") == "Zm9v"
    ensures Encode("foob") == "Zm9vYg"
  {
    assert EncodeQuantum("f") == "Zg";
    assert EncodeQuantum("fo") == "Zm8";
    assert EncodeQuantum("foo") == "Zm9v";
    assert EncodeQuantum("b") == "Yg";
    assert "foob"[..3] == "foo" && "foob"[3..] == "b";
    assert Encode("foob") == EncodeQuantum("foo") + Encode("b");
  }

  // ---- RFC 3339 text, in UTC, to the nanosecond ---------------------------------------------

  datatype Stamp = Stamp(year: int, month: int, day: int, hour: int, minute: int, second: int, nano: int)

  predicate Leap(year: int) {
    year % 4 == 0 && (year % 100 != 0 || year % 400 == 0)
  }

  function DaysIn(month: int, year: int): int {
    if month == 2 then (if Leap(year) then 29 else 28)
    else if month == 4 || month == 6 || month == 9 || month == 11 then 30 else 31
  }

  predicate ValidStamp(t: Stamp) {
    && 0 <= t.year <= 9999 && 1 <= t.month <= 12 && 1 <= t.day <= DaysIn(t.month, t.year)
    && 0 <= t.hour < 24 && 0 <= t.minute < 60 && 0 <= t.second < 60 && 0 <= t.nano < 1_000_000_000
  }

  /** The Gregorian calendar: which months are short, and which Februaries have 29 days. */
  lemma Calendar(year: int)
    ensures DaysIn(4, year) == DaysIn(6, year) == DaysIn(9, year) == DaysIn(11, year) == 30
    ensures DaysIn(1, year) == DaysIn(3, year) == DaysIn(5, year) == DaysIn(7, year) == 31
    ensures DaysIn(8, year) == DaysIn(10, year) == DaysIn(12, year) == 31
    ensures DaysIn(2, 2023) == 28 && DaysIn(2, 2024) == 29 && DaysIn(2, 1900) == 28 && DaysIn(2, 2000) == 29
  {
  }

  function Digit(n: int): char
    requires 0 <= n < 10
  {
    ('0' as int + n) as char
  }

  predicate IsDigit(c: char) {
    '0' <= c <= '9'
  }

  predicate AllDigits(s: string) {
    forall i :: 0 <= i < |s| ==> IsDigit(s[i])
  }

  /** n in exactly k digits. */
  function Padded(n: int, k: nat): (s: string)
    requires n >= 0
    ensures |s| == k && AllDigits(s)
  {
    if k == 0 then "" else Padded(n / 10, k - 1) + [Digit(n % 10)]
  }

  function Number(s: string): (n: int)
    requires AllDigits(s)
    ensures n >= 0
  {
    if s == "" then 0 else Number(s[..|s| - 1]) * 10 + (s[|s| - 1] as int - '0' as int)
  }

  function Pow10(k: nat): int {
    if k == 0 then 1 else 10 * Pow10(k - 1)
  }

  lemma {:induction false} NumberPadded(n: int, k: nat)
    requires 0 <= n < Pow10(k)
    ensures Number(Padded(n, k)) == n
  {
    if k > 0 {
      NumberPadded(n / 10, k - 1);
      assert Padded(n, k)[..k - 1] == Padded(n / 10, k - 1);
    }
  }

  function Trimmed(s: string): (r: string)
    ensures |r| <= |s| && (AllDigits(s) ==> AllDigits(r))
  {
    if s != "" && s[|s| - 1] == '0' then Trimmed(s[..|s| - 1]) else s
  }

  function Zeros(k: nat): (s: string)
    ensures |s| == k && AllDigits(s)
  {
    seq(k, _ => '0')
  }

  lemma {:induction false} TrimmedBack(s: string)
    ensures Trimmed(s) + Zeros(|s| - |Trimmed(s)|) == s
  {
    if s != "" && s[|s| - 1] == '0' {
      TrimmedBack(s[..|s| - 1]);
      assert s == s[..|s| - 1] + ['0'];
    }
  }

  /** The fraction drops its trailing zeros, and disappears when it is zero. */
  function Fraction(nano: int): (s: string)
    requires 0 <= nano
  {
    if nano == 0 then "" else "." + Trimmed(Padded(nano, 9))
  }

  function DatePart(t: Stamp): (s: string)
    requires ValidStamp(t)
    ensures |s| == 11
  {
    Padded(t.year, 4) + "-" + Padded(t.month, 2) + "-" + Padded(t.day, 2) + "T"
  }

  function TimePart(t: Stamp): (s: string)
    requires ValidStamp(t)
    ensures |s| == 8
  {
    Padded(t.hour, 2) + ":" + Padded(t.minute, 2) + ":" + Padded(t.second, 2)
  }

  function Format(t: Stamp): string
    requires ValidStamp(t)
  {
    DatePart(t) + TimePart(t) + (Fraction(t.nano) + "Z")
  }

  lemma TwoDigits(n: int)
    requires 0 <= n < 100
    ensures Padded(n, 2) == [Digit(n / 10), Digit(n % 10)]
  {
    assert Padded(n / 10, 1) == [Digit(n / 10)];
  }

  lemma DateExample()
    ensures DatePart(Stamp(2024, 1, 2, 3, 4, 5, 60_000_000)) == "2024-01-02T"
  {
    TwoDigits(1);
    TwoDigits(2);
    TwoDigits(20);
    assert Padded(202, 3) == "202" && Padded(2024, 4) == "2024";
  }

  lemma TimeExample()
    ensures TimePart(Stamp(2024, 1, 2, 3, 4, 5, 60_000_000)) == "03:04:05"
  {
    TwoDigits(3);
    TwoDigits(4);
    TwoDigits(5);
  }

  /** An instant as RFC 3339 writes it: zero-padded fields, and a fraction without trailing zeros. */
  lemma FormatExample()
    ensures Format(Stamp(2024, 1, 2, 3, 4, 5, 60_000_000)) == "2024-01-02T" + "03:04:05" + (".06" + "Z")
  {
    DateExample();
    TimeExample();
    FractionExample();
  }

  /** Each factor of ten is one more zero. */
  lemma {:induction false} PaddedTimesTens(n: nat, k: nat, z: nat)
    ensures n * Pow10(z) >= 0 && Padded(n * Pow10(z), k + z) == Padded(n, k) + Zeros(z)
    decreases z
  {
    if z == 0 {
      assert Padded(n, k) + Zeros(0) == Padded(n, k);
    } else {
      PaddedTimesTens(n, k, z - 1);
      TimesTen(n, Pow10(z - 1));
      assert Zeros(z - 1) + "0" == Zeros(z);
      assert Padded(n, k) + Zeros(z - 1) + "0" == Padded(n, k) + Zeros(z);
    }
  }

  lemma TimesTen(n: nat, p: int)
    requires n * p >= 0
    ensures n * (10 * p) == 10 * (n * p) && n * (10 * p) / 10 == n * p && n * (10 * p) % 10 == 0
  {
  }

  lemma FractionExample()
    ensures Fraction(60_000_000) == ".06"
  {
    TwoDigits(6);
    TenTo9();
    PaddedTimesTens(6, 2, 7);
    TrimmedZeros("06", 7);
  }

  lemma {:induction false} TrimmedZeros(s: string, k: nat)
    requires s != "" && s[|s| - 1] != '0'
    ensures Trimmed(s + Zeros(k)) == s
  {
    if k > 0 {
      assert (s + Zeros(k))[..|s| + k - 1] == s + Zeros(k - 1);
      TrimmedZeros(s, k - 1);
    } else {
      assert s + Zeros(0) == s;
    }
  }

  /** How many digits s starts with. */
  function DigitRun(s: string): (k: nat)
    ensures k <= |s| && AllDigits(s[..k]) && (k < |s| ==> !IsDigit(s[k]))
  {
    if s == "" || !IsDigit(s[0]) then 0 else 1 + DigitRun(s[1..])
  }

  /** The first nine digits of a fraction, as nanoseconds. */
  function Nanos(ds: string): int
    requires AllDigits(ds)
  {
    if |ds| >= 9 then Number(ds[..9]) else Number(ds + Zeros(9 - |ds|))
  }

  /** What follows the seconds: an optional fraction and the zone, which is UTC. */
  function ParseTail(s: string): Option<int> {
    if |s| >= 2 && s[0] == '.' && IsDigit(s[1]) then
      var k := DigitRun(s[1..]);
      if s[1 + k..] == "Z" then Some(Nanos(s[1..][..k])) else None
    else if s == "Z" then Some(0) else None
  }

  function Parse(s: string): (r: Option<Stamp>)
    ensures r.Some? ==> ValidStamp(r.value)
  {
    if |s| < 20 || s[4] != '-' || s[7] != '-' || s[10] != 'T' || s[13] != ':' || s[16] != ':' then None
    else if !AllDigits(s[0..4]) || !AllDigits(s[5..7]) || !AllDigits(s[8..10])
            || !AllDigits(s[11..13]) || !AllDigits(s[14..16]) || !AllDigits(s[17..19]) then None
    else
      var nano := ParseTail(s[19..]);
      if nano == None then None
      else
        var t := Stamp(Number(s[0..4]), Number(s[5..7]), Number(s[8..10]),
                       Number(s[11..13]), Number(s[14..16]), Number(s[17..19]), nano.value);
        if ValidStamp(t) then Some(t) else None
  }

  lemma {:induction false} DigitRunOf(ds: string, rest: string)
    requires AllDigits(ds) && (rest == "" || !IsDigit(rest[0]))
    ensures DigitRun(ds + rest) == |ds|
    decreases |ds|
  {
    if ds == "" {
      assert ds + rest == rest;
    } else {
      assert (ds + rest)[1..] == ds[1..] + rest;
      DigitRunOf(ds[1..], rest);
    }
  }

  lemma {:induction false} NonZeroKeepsDigits(n: int, k: nat)
    requires 0 < n < Pow10(k)
    ensures Trimmed(Padded(n, k)) != ""
    decreases k
  {
    if k > 0 && n % 10 == 0 {
      assert Padded(n, k)[..k - 1] == Padded(n / 10, k - 1);
      NonZeroKeepsDigits(n / 10, k - 1);
    }
  }

  lemma TenTo9()
    ensures Pow10(9) == 1_000_000_000 && Pow10(4) == 10_000 && Pow10(2) == 100 && Pow10(7) == 10_000_000
  {
    assert Pow10(4) == 10_000;
    assert Pow10(8) == 10 * (10 * (10 * (10 * Pow10(4))));
  }

  lemma DigitsParse(ds: string)
    requires AllDigits(ds) && ds != ""
    ensures ParseTail("." + ds + "Z") == Some(Nanos(ds))
  {
    var s := "." + ds + "Z";
    assert s[1..] == ds + "Z";
    DigitRunOf(ds, "Z");
    assert s[1 + |ds|..] == "Z" && (ds + "Z")[..|ds|] == ds;
  }

  lemma NanosBack(nano: int)
    requires 0 < nano < 1_000_000_000
    ensures Trimmed(Padded(nano, 9)) != "" && Nanos(Trimmed(Padded(nano, 9))) == nano
  {
    var all := Padded(nano, 9);
    var ds := Trimmed(all);
    TenTo9();
    NonZeroKeepsDigits(nano, 9);
    TrimmedBack(all);
    NumberPadded(nano, 9);
    if |ds| == 9 {
      assert ds[..9] == ds == ds + Zeros(0);
    }
  }

  lemma TailParses(nano: int)
    requires 0 <= nano < 1_000_000_000
    ensures ParseTail(Fraction(nano) + "Z") == Some(nano)
  {
    if nano > 0 {
      NanosBack(nano);
      DigitsParse(Trimmed(Padded(nano, 9)));
    }
  }

  lemma DateSlices(t: Stamp)
    requires ValidStamp(t)
    ensures var s := DatePart(t);
            && s[4] == '-' && s[7] == '-' && s[10] == 'T'
            && s[0..4] == Padded(t.year, 4) && s[5..7] == Padded(t.month, 2) && s[8..10] == Padded(t.day, 2)
  {
  }

  lemma TimeSlices(t: Stamp)
    requires ValidStamp(t)
    ensures var s := TimePart(t);
            && s[2] == ':' && s[5] == ':'
            && s[0..2] == Padded(t.hour, 2) && s[3..5] == Padded(t.minute, 2) && s[6..8] == Padded(t.second, 2)
  {
  }

  lemma FormatSlices(t: Stamp)
    requires ValidStamp(t)
    ensures var s := Format(t);
            && |s| >= 20 && s[4] == '-' && s[7] == '-' && s[10] == 'T' && s[13] == ':' && s[16] == ':'
            && s[0..4] == Padded(t.year, 4) && s[5..7] == Padded(t.month, 2) && s[8..10] == Padded(t.day, 2)
            && s[11..13] == Padded(t.hour, 2) && s[14..16] == Padded(t.minute, 2) && s[17..19] == Padded(t.second, 2)
            && s[19..] == Fraction(t.nano) + "Z"
  {
    DateSlices(t);
    TimeSlices(t);
    SlicesOfParts(DatePart(t), TimePart(t), Fraction(t.nano) + "Z");
  }

  lemma SlicesOfParts(d: string, m: string, tail: string)
    requires |d| == 11 && |m| == 8
    ensures var s := d + m + tail;
            && |s| == 19 + |tail| && s[4] == d[4] && s[7] == d[7] && s[10] == d[10] && s[13] == m[2] && s[16] == m[5]
            && s[0..4] == d[0..4] && s[5..7] == d[5..7] && s[8..10] == d[8..10]
            && s[11..13] == m[0..2] && s[14..16] == m[3..5] && s[17..19] == m[6..8] && s[19..] == tail
  {
  }

  lemma FieldsComeBack(t: Stamp)
    requires ValidStamp(t)
    ensures Number(Padded(t.year, 4)) == t.year && Number(Padded(t.month, 2)) == t.month && Number(Padded(t.day, 2)) == t.day
    ensures Number(Padded(t.hour, 2)) == t.hour && Number(Padded(t.minute, 2)) == t.minute && Number(Padded(t.second, 2)) == t.second
  {
    TenTo9();
    NumberPadded(t.year, 4);
    NumberPadded(t.month, 2);
    NumberPadded(t.day, 2);
    NumberPadded(t.hour, 2);
    NumberPadded(t.minute, 2);
    NumberPadded(t.second, 2);
  }

  /** Every UTC instant of the years 0 to 9999 survives, to the nanosecond. */
  lemma ParseFormat(t: Stamp)
    requires ValidStamp(t)
    ensures Parse(Format(t)) == Some(t)
  {
    FormatSlices(t);
    FieldsComeBack(t);
    TailParses(t.nano);
  }

  // ---- the token -------------------------------------------------------------------------------

  type Instant = t: Stamp | ValidStamp(t) witness Stamp(1, 1, 1, 0, 0, 0, 0)

  type ByteString = s: string | Bytes(s)

  /** A position in the (created_at, id) order. */
  datatype Key = Key(createdAt: Instant, id: ByteString)

  function EncodeCursor(c: Option<Key>): string {
    if c == None then ""
    else
      FormatBytes(c.value.createdAt);
      Encode(Format(c.value.createdAt) + "|" + c.value.id)
  }

  datatype BadCursor = NotBase64 | Malformed | BadTimestamp

  /** Where s has its first bar, or |s|. */
  function Bar(s: string): (k: nat)
    ensures k <= |s| && '|' !in s[..k] && (k < |s| ==> s[k] == '|')
  {
    if s == "" || s[0] == '|' then 0 else 1 + Bar(s[1..])
  }

  function DecodeCursor(tok: string): Result<Option<Key>, BadCursor> {
    if tok == "" then Ok(None)
    else
      var raw := Decode(tok);
      if raw == None then Err(NotBase64)
      else
        var k := Bar(raw.value);
        if k == |raw.value| then Err(Malformed)
        else
          var t := Parse(raw.value[..k]);
          if t == None then Err(BadTimestamp) else Ok(Some(Key(t.value, raw.value[k + 1..])))
  }

  /** Only the empty token starts a listing over; any other is a position or an error. */
  lemma TokenDecides(tok: string)
    ensures DecodeCursor(tok) == Ok(None) <==> tok == ""
    ensures tok != "" && Decode(tok) == None ==> DecodeCursor(tok) == Err(NotBase64)
    ensures tok != "" && Decode(tok).Some? && '|' !in Decode(tok).value ==> DecodeCursor(tok) == Err(Malformed)
  {
    if tok != "" && Decode(tok).Some? {
      var raw := Decode(tok).value;
      assert raw[..Bar(raw)] + raw[Bar(raw)..] == raw;
    }
  }

  lemma FormatBytes(t: Stamp)
    requires ValidStamp(t)
    ensures Bytes(Format(t)) && '|' !in Format(t)
  {
    forall c | c in Format(t) ensures c as int < 256 && c != '|' {
      assert IsDigit(c) || c in {'-', 'T', ':', '.', 'Z'};
    }
  }

  lemma {:induction false} BarAfter(a: string, b: string)
    requires '|' !in a
    ensures Bar(a + "|" + b) == |a|
    decreases |a|
  {
    if a != "" {
      assert (a + "|" + b)[1..] == a[1..] + "|" + b;
      BarAfter(a[1..], b);
    }
  }

  lemma TextComesBack(raw: string)
    requires Bytes(raw) && raw != ""
    ensures Encode(raw) != "" && Decode(Encode(raw)) == Some(raw)
  {
    EncodedLetters(raw);
    DecodeEncode(raw);
  }

  /** Cutting at the first bar takes the text apart again. */
  lemma TextCuts(tok: string, text: string, id: ByteString)
    requires tok != "" && Decode(tok) == Some(text + "|" + id) && '|' !in text && Parse(text).Some?
    ensures DecodeCursor(tok) == Ok(Some(Key(Parse(text).value, id)))
  {
    var raw := text + "|" + id;
    BarAfter(text, id);
    assert raw[..|text|] == text && raw[|text| + 1..] == id;
  }

  /** A token brings back exactly the position it was made from, whatever bytes the id holds. */
  lemma TokenRoundTrip(c: Option<Key>)
    ensures DecodeCursor(EncodeCursor(c)) == Ok(c)
    ensures EncodeCursor(c) == "" <==> c == None
  {
    if c.Some? {
      var text := Format(c.value.createdAt);
      FormatBytes(c.value.createdAt);
      TextComesBack(text + "|" + c.value.id);
      ParseFormat(c.value.createdAt);
      TextCuts(EncodeCursor(c), text, c.value.id);
    }
  }
}
