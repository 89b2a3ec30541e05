/** `Rounder.round` (entry_manipulation/utils/rounder.py): amounts are rounded to the
    number of decimals configured for their currency, as Python's `round(Decimal, n)`
    does it, that is to the nearest multiple of 10^-n with ties going to the even
    neighbour. `n` may be negative (round to tens, hundreds, ...). */
module Rounding {
  import opened Results

  function Abs(x: real): real { if x < 0.0 then -x else x }

  function Pow10(n: nat): (r: nat)
    ensures r >= 1
  {
    if n == 0 then 1 else 10 * Pow10(n - 1)
  }

  /** The distance between neighbouring values with `decimals` places. */
  function Quantum(decimals: int): (q: real)
    ensures q > 0.0
  {
    if decimals >= 0 then 1.0 / (Pow10(decimals) as real) else Pow10(-decimals) as real
  }

  /** The integer nearest to `y`; of two equally near ones, the even one. */
  function RoundHalfEvenInt(y: real): (k: int)
    ensures Abs(k as real - y) <= 0.5
    ensures Abs(k as real - y) == 0.5 ==> k % 2 == 0
  {
    var f := y.Floor;
    var frac := y - f as real;
    if frac < 0.5 then f
    else if frac > 0.5 then f + 1
    else if f % 2 == 0 then f
    else f + 1
  }

  /** `round(x, decimals)` on a Decimal. */
  function RoundTo(x: real, decimals: int): real {
    RoundHalfEvenInt(x / Quantum(decimals)) as real * Quantum(decimals)
  }

  /** `Rounder(roundings).round(number, currency)`; `None` stands for a rounder built
      without a rounding table. A currency without an entry is left as it is. */
  function Round(roundings: Option<map<string, int>>, number: real, currency: string): (r: real)
    ensures roundings.None? ==> r == number
    ensures roundings.Some? && currency !in roundings.value ==> r == number
    ensures roundings.Some? && currency in roundings.value ==>
      var q := Quantum(roundings.value[currency]);
      (r / q).Floor as real == r / q && Abs(r - number) <= q / 2.0
      && (Abs(r - number) == q / 2.0 ==> (r / q).Floor % 2 == 0)
  {
    match roundings
    case None => number
    case Some(table) =>
      if currency in table then
        var d := table[currency];
        RoundToBound(number, d);
        RoundToWhole(number, d);
        RoundToTie(number, d);
        RoundTo(number, d)
      else number
  }

  lemma MulDiv(a: real, q: real)
    requires q > 0.0
    ensures (a * q) / q == a
  {
  }

  lemma ScaleBack(x: real, q: real)
    requires q > 0.0
    ensures (x / q) * q == x
  {
  }

  lemma MulMono(a: real, b: real, q: real)
    requires a <= b && q > 0.0
    ensures a * q <= b * q
  {
  }

  lemma ScaleDistance(k: real, y: real, q: real)
    requires q > 0.0 && Abs(k - y) <= 0.5
    ensures Abs(k * q - y * q) <= q / 2.0
  {
    if k >= y {
      MulMono(0.0, k - y, q);
      MulMono(k - y, 0.5, q);
      assert k * q - y * q == (k - y) * q;
    } else {
      MulMono(0.0, y - k, q);
      MulMono(y - k, 0.5, q);
      assert y * q - k * q == (y - k) * q;
    }
  }

  lemma DivMul(x: real, q: real, y: real)
    requires q > 0.0 && y == x / q
    ensures y * q == x
  {
  }

  lemma NearBack(x: real, q: real, y: real, k: real)
    requires q > 0.0 && y == x / q && Abs(k - y) <= 0.5
    ensures Abs(k * q - x) <= q / 2.0
  {
    DivMul(x, q, y);
    ScaleDistance(k, y, q);
    var kq, yq := k * q, y * q;
    assert Abs(kq - yq) <= q / 2.0 && yq == x;
  }

  lemma WholeBack(k: int, q: real)
    requires q > 0.0
    ensures ((k as real * q) / q).Floor as real == (k as real * q) / q
  {
    MulDiv(k as real, q);
  }

  /** A rounded amount is never more than half a unit of the last kept place away. */
  lemma RoundToBound(x: real, decimals: int)
    ensures Abs(RoundTo(x, decimals) - x) <= Quantum(decimals) / 2.0
  {
    var q := Quantum(decimals);
    NearBack(x, q, x / q, RoundHalfEvenInt(x / q) as real);
  }

  /** A rounded amount is a whole number of units of the last kept place. */
  lemma RoundToWhole(x: real, decimals: int)
    ensures (RoundTo(x, decimals) / Quantum(decimals)).Floor as real == RoundTo(x, decimals) / Quantum(decimals)
  {
    var q := Quantum(decimals);
    var k := RoundHalfEvenInt(x / q);
    assert RoundTo(x, decimals) == k as real * q;
    WholeBack(k, q);
  }

  lemma TieScale(e: real, q: real)
    requires q > 0.0 && Abs(e * q) == q / 2.0
    ensures Abs(e) == 0.5
  {
    MulDiv(e, q);
    if e >= 0.0 {
      MulMono(0.0, e, q);
      assert e * q == q / 2.0;
    } else {
      MulMono(e, 0.0, q);
      assert (-e) * q == q / 2.0;
      MulDiv(-e, q);
    }
  }

  lemma TieBack(x: real, q: real, k: int)
    requires q > 0.0
    requires Abs(k as real - x / q) == 0.5 ==> k % 2 == 0
    ensures Abs(k as real * q - x) == q / 2.0 ==> ((k as real * q) / q).Floor % 2 == 0
  {
    var y := x / q;
    MulDiv(k as real, q);
    DivMul(x, q, y);
    var e := k as real - y;
    assert k as real * q - x == e * q;
    assert (k as real).Floor == k;
    if Abs(k as real * q - x) == q / 2.0 {
      TieScale(e, q);
      assert Abs(k as real - x / q) == 0.5;
      assert k % 2 == 0;
      var m := (k as real * q) / q;
      assert m == k as real;
      assert m.Floor == k;
    }
  }

  /** At an exact tie the rounded amount is an even number of units of the last kept
      place. */
  lemma RoundToTie(x: real, decimals: int)
    ensures var q := Quantum(decimals);
      Abs(RoundTo(x, decimals) - x) == q / 2.0 ==> (RoundTo(x, decimals) / q).Floor % 2 == 0
  {
    var q := Quantum(decimals);
    var k := RoundHalfEvenInt(x / q);
    assert RoundTo(x, decimals) == k as real * q;
    TieBack(x, q, k);
  }

  /** An amount that already is a whole number of units of the last kept place is
      not changed. */
  lemma RoundToExact(x: real, decimals: int)
    requires (x / Quantum(decimals)).Floor as real == x / Quantum(decimals)
    ensures RoundTo(x, decimals) == x
  {
    var q := Quantum(decimals);
    var y := x / q;
    assert RoundHalfEvenInt(y) == y.Floor;
    ScaleBack(x, q);
  }

  /** Rounding twice is rounding once. */
  lemma RoundIdempotent(roundings: Option<map<string, int>>, number: real, currency: string)
    ensures Round(roundings, Round(roundings, number, currency), currency) == Round(roundings, number, currency)
  {
    if roundings.Some? && currency in roundings.value {
      var d := roundings.value[currency];
      RoundToWhole(number, d);
      RoundToExact(RoundTo(number, d), d);
    }
  }

  /** Rounding moves an amount by at most half a unit of the currency's last place. */
  lemma RoundBound(roundings: Option<map<string, int>>, number: real, currency: string)
    requires roundings.Some? && currency in roundings.value
    ensures Abs(Round(roundings, number, currency) - number) <= Quantum(roundings.value[currency]) / 2.0
  {
    RoundToBound(number, roundings.value[currency]);
  }
}
