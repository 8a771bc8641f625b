/** Amounts in cents and their wire form of whole units plus nanos. */
module Money {
  import opened Base

  datatype Money = Money(currency: string, cents: int)

  function FromUnitsNanos(currency: string, units: int, nanos: int): Money {
    Money(currency, units * 100 + GoDiv(nanos, 10_000_000))
  }

  function Units(m: Money): int {
    GoDiv(m.cents, 100)
  }

  function Nanos(m: Money): int {
    GoMod(m.cents, 100) * 10_000_000
  }

  /** Every amount, negative ones included, survives the wire, and its nanos fit int32. */
  lemma WireRoundTrip(m: Money)
    ensures FromUnitsNanos(m.currency, Units(m), Nanos(m)) == m
    ensures MIN32 <= Nanos(m) <= MAX32
  {
    var r := GoMod(m.cents, 100);
    assert GoDiv(r * 10_000_000, 10_000_000) == r;
  }

  /** In nanos: decoding is off by less than a cent, by nothing for whole cents, and encoding is exact. */
  lemma WireInNanos(currency: string, units: int, nanos: int, m: Money)
    ensures var cents := FromUnitsNanos(currency, units, nanos).cents;
            && -10_000_000 < cents * 10_000_000 - (units * 1_000_000_000 + nanos) < 10_000_000
            && (nanos % 10_000_000 == 0 ==> cents * 10_000_000 == units * 1_000_000_000 + nanos)
    ensures Units(m) * 1_000_000_000 + Nanos(m) == m.cents * 10_000_000 && -1_000_000_000 < Nanos(m) < 1_000_000_000
  {
    var k := GoDiv(nanos, 10_000_000);
    assert nanos % 10_000_000 == 0 ==> nanos == 10_000_000 * (nanos / 10_000_000);
    assert GoMod(m.cents, 100) == m.cents - 100 * GoDiv(m.cents, 100);
  }

  /** A wire amount survives exactly when it is whole cents in canonical form. */
  lemma WireExact(currency: string, units: int, nanos: int)
    ensures var m := FromUnitsNanos(currency, units, nanos);
            (Units(m) == units && Nanos(m) == nanos) <==>
            (nanos % 10_000_000 == 0 && -1_000_000_000 < nanos < 1_000_000_000
             && !(units > 0 && nanos < 0) && !(units < 0 && nanos > 0))
  {
    var k := GoDiv(nanos, 10_000_000);
    var m := FromUnitsNanos(currency, units, nanos);
    var r := GoMod(m.cents, 100);
    if Units(m) == units && Nanos(m) == nanos {
      assert m.cents == 100 * units + r;
      assert nanos == r * 10_000_000;
    }
  }
}
