/** Currency conversion as Python's decimal arithmetic performs it: a product rounded half-even to
    28 significant digits, then quantized half-up to cents. Amounts are whole cents, rates are
    integers scaled by 10^8, so a product counts units of 10^-10. */
module Conversion {
  import opened Entities
  import opened Numbers

  const PRECISION := 28
  const RATE_SCALE := 1_0000_0000
  const NUMERIC_18_2_LIMIT := 1_000_000_000_000_000_000

  function Pow10(n: nat): (p: nat)
    ensures p >= 1
  {
    if n == 0 then 1 else 10 * Pow10(n - 1)
  }

  function Digits(n: nat): (d: nat)
    ensures d >= 1
  {
    if n < 10 then 1 else 1 + Digits(n / 10)
  }

  function Abs(x: int): nat {
    if x < 0 then -x else x
  }

  function HalfUp(n: nat, unit: nat): nat
    requires unit > 0
  {
    n / unit + if 2 * (n % unit) >= unit then 1 else 0
  }

  function HalfEven(n: nat, unit: nat): nat
    requires unit > 0
  {
    var q, r := n / unit, n % unit;
    q + if 2 * r > unit || (2 * r == unit && q % 2 == 1) then 1 else 0
  }

  /** The magnitude a context of 28 digits keeps of an exact product. */
  function RoundToPrecision(n: nat): nat {
    if Digits(n) <= PRECISION then n
    else
      var unit := Pow10(Digits(n) - PRECISION);
      HalfEven(n, unit) * unit
  }

  /** None is decimal.InvalidOperation: the quantized value would need more than 28 digits. */
  function ConvertAmount(amount: int, rate: int): Option<int> {
    var product := amount * rate;
    var cents: int := HalfUp(RoundToPrecision(Abs(product)), RATE_SCALE);
    if Digits(cents) > PRECISION then None
    else Some(if product < 0 then -cents else cents)
  }

  /** Whether the column NUMERIC(18,2) can hold the amount. */
  predicate FitsColumn(cents: int) {
    Abs(cents) < NUMERIC_18_2_LIMIT
  }

  /** The nearest number of cents to amount times rate; a tie goes away from zero. */
  ghost predicate IsNearest(cents: int, amount: int, rate: int) {
    var exact := amount * rate;
    if exact >= 0 then
      cents * RATE_SCALE * 2 - RATE_SCALE <= exact * 2 < cents * RATE_SCALE * 2 + RATE_SCALE
    else
      cents * RATE_SCALE * 2 - RATE_SCALE < exact * 2 <= cents * RATE_SCALE * 2 + RATE_SCALE
  }

  lemma {:induction false} DigitsBound(n: nat)
    ensures n < Pow10(Digits(n))
    ensures n > 0 ==> Pow10(Digits(n) - 1) <= n
    ensures n == 0 ==> Digits(n) == 1
  {
    if n >= 10 {
      DigitsBound(n / 10);
    }
  }

  lemma {:induction false} Pow10Monotone(i: nat, j: nat)
    requires i <= j
    ensures Pow10(i) <= Pow10(j)
  {
    if i < j {
      Pow10Monotone(i, j - 1);
    }
  }

  lemma {:induction false} Pow10Add(i: nat, j: nat)
    ensures Pow10(i + j) == Pow10(i) * Pow10(j)
  {
    if i > 0 {
      Pow10Add(i - 1, j);
    }
  }

  lemma Pow10Value()
    ensures Pow10(27) == 1_000_000_000_000_000_000_000_000_000
  {
    assert Pow10(9) == 1_000_000_000;
    Pow10Add(9, 9);
    Pow10Add(18, 9);
  }

  lemma KeptDigits(n: nat, unit: nat, least: nat)
    requires unit > 0 && n >= least * unit
    ensures HalfEven(n, unit) * unit >= least * unit
  {
    var q := n / unit;
    if q < least {
      ProductMonotone(q + 1, least, unit);
      assert false;
    }
    ProductMonotone(least, HalfEven(n, unit), unit);
  }

  lemma LargeMultiple(n: nat, k: nat)
    requires k > 0 && Pow10(27 + k) <= n
    ensures n >= Pow10(27) * Pow10(k) >= Pow10(28)
  {
    Pow10Add(27, k);
    Pow10Monotone(28, 27 + k);
  }

  /** A number that needs more than 28 digits is still large after it is rounded to 28 digits. */
  lemma EarlyRoundingOnlyWhenLarge(n: nat)
    requires Digits(n) > PRECISION
    ensures n >= Pow10(28)
    ensures RoundToPrecision(n) >= Pow10(28)
  {
    hide Digits, Pow10, HalfEven;
    var k := Digits(n) - PRECISION;
    DigitsBound(n);
    LargeMultiple(n, k);
    KeptDigits(n, Pow10(k), Pow10(27));
  }

  lemma HalfUpIsNearest(n: nat)
    ensures IsNearest(HalfUp(n, RATE_SCALE), n, 1)
    ensures n >= Pow10(28) ==> HalfUp(n, RATE_SCALE) >= NUMERIC_18_2_LIMIT
  {
    Pow10Value();
  }

  /** Rounding to 28 digits never disturbs a conversion whose result the column can hold: a number of
      cents that the column can hold is the result if and only if it is the nearest one. */
  lemma ConversionIsExact(amount: int, rate: int, cents: int)
    ensures FitsColumn(cents) ==> (ConvertAmount(amount, rate) == Some(cents) <==> IsNearest(cents, amount, rate))
  {
    var n := Abs(amount * rate);
    HalfUpIsNearest(n);
    if Digits(n) <= PRECISION {
      var c := HalfUp(n, RATE_SCALE);
      SmallQuotientHasFewDigits(n);
    } else {
      EarlyRoundingOnlyWhenLarge(n);
      HalfUpIsNearest(RoundToPrecision(n));
    }
  }

  lemma SmallQuotientHasFewDigits(n: nat)
    requires Digits(n) <= PRECISION
    ensures Digits(HalfUp(n, RATE_SCALE)) <= PRECISION
  {
    var c := HalfUp(n, RATE_SCALE);
    DigitsBound(n);
    Pow10Monotone(Digits(n), 28);
    Pow10Value();
    if Digits(c) > PRECISION {
      DigitsBound(c);
      Pow10Monotone(28, Digits(c) - 1);
    }
  }

  lemma {:induction false} DigitsUnique(n: nat, k: nat)
    requires k > 0 && Pow10(k - 1) <= n < Pow10(k)
    ensures Digits(n) == k
  {
    DigitsBound(n);
    if Digits(n) < k {
      Pow10Monotone(Digits(n), k - 1);
    } else if Digits(n) > k {
      Pow10Monotone(k, Digits(n) - 1);
    }
  }

  /** Beyond the column the two roundings can differ by a cent from the exact result, even for an
      amount and a rate that their own columns hold. */
  lemma EarlyRoundingCanShow()
    ensures exists amount: int, rate: int, cents: int ::
              && FitsColumn(amount) && FitsColumn(rate)
              && ConvertAmount(amount, rate) == Some(cents) && !IsNearest(cents, amount, rate)
  {
    var amount, rate := 999_999_999_999_999, 900_000_050_000_005;
    var product := 900_000_050_000_004_099_999_949_999_995;
    assert amount * rate == product;
    Pow10Value();
    assert Pow10(29) == 100 * Pow10(27) && Pow10(30) == 10 * Pow10(29);
    DigitsUnique(product, 30);
    assert Pow10(2) == 100;
    assert RoundToPrecision(product) == 900_000_050_000_004_099_999_950_000_000;
    var cents := 9_000_000_500_000_041_000_000;
    assert Pow10(22) == 10_000 * Pow10(18) && Pow10(21) == 1000 * Pow10(18)
        && Pow10(18) == 1_000_000_000_000_000_000 by {
      assert Pow10(9) == 1_000_000_000;
      Pow10Add(9, 9);
    }
    DigitsUnique(cents, 22);
    assert ConvertAmount(amount, rate) == Some(cents) && !IsNearest(cents, amount, rate);
  }

  // ----- exactly when the early rounding shows

  /** The products, in magnitude, that convert to the nearest number of cents although they were rounded
      to 28 digits first. 29 to 35 digits lose less than a cent, so only a remainder just below half a
      cent suffers; 36 digits are rounded to whole cents at once, half-even. */
  predicate RoundsExactly(n: nat) {
    var r := n % RATE_SCALE;
    if Digits(n) <= PRECISION then true
    else if Digits(n) < 36 then
      var unit := Pow10(Digits(n) - PRECISION);
      2 * r >= RATE_SCALE || 2 * r + unit < RATE_SCALE || (Digits(n) == 35 && 2 * r + unit == RATE_SCALE)
    else 2 * r != RATE_SCALE || n / RATE_SCALE % 2 == 1
  }

  lemma SmallPowers()
    ensures Pow10(1) == 10 && Pow10(2) == 100 && Pow10(3) == 1000 && Pow10(4) == 10000
    ensures Pow10(5) == 100000 && Pow10(6) == 1000000 && Pow10(7) == 10000000 && Pow10(8) == RATE_SCALE
  {
    assert Pow10(4) == 10000;
  }

  /** Where the unit of the early rounding is less than a cent: half a cent is `half` units. */
  lemma FineUnit(n: nat, unit: nat, half: nat)
    requires unit > 1 && half > 0 && 2 * half * unit == RATE_SCALE
    ensures HalfUp(HalfEven(n, unit) * unit, RATE_SCALE) == HalfUp(n, RATE_SCALE)
       <==> (|| 2 * (n % RATE_SCALE) >= RATE_SCALE
             || 2 * (n % RATE_SCALE) + unit < RATE_SCALE
             || (half % 2 == 1 && 2 * (n % RATE_SCALE) + unit == RATE_SCALE))
  {
    hide HalfEven, HalfUp;
    var q, r := n / RATE_SCALE, n % RATE_SCALE;
    var t, m := r / unit, r % unit;
    Split(n, unit, half, q, t, m);
    var kept := t + Up(t, m, unit);
    KeptParity(n, unit, half, q, t, m);
    AtLeastHalf(kept, unit, half, 0);
    AtLeastHalf(t, unit, half, m);
    QuantizedPart(q, kept * unit, kept, unit, half);
    QuantizedWhole(n);
    OneShort(t, m, unit, half);
  }

  function Up(t: nat, m: nat, unit: nat): nat {
    if 2 * m > unit || (2 * m == unit && t % 2 == 1) then 1 else 0
  }

  lemma QuantizedWhole(n: nat)
    ensures HalfUp(n, RATE_SCALE) == n / RATE_SCALE + if 2 * (n % RATE_SCALE) >= RATE_SCALE then 1 else 0
  {
  }

  lemma KeptParity(n: nat, unit: nat, half: nat, q: nat, t: nat, m: nat)
    requires unit > 1 && 2 * half * unit == RATE_SCALE
    requires n / unit == q * 2 * half + t && n % unit == m
    ensures HalfEven(n, unit) * unit == q * RATE_SCALE + (t + Up(t, m, unit)) * unit
  {
    hide HalfEven;
    UpIf(n / unit, half, q, t);
    KeptIs(n, unit, q * 2 * half + t, m);
    Units(q, half, t + Up(t, m, unit), unit);
  }

  lemma KeptIs(n: nat, unit: nat, kept: nat, m: nat)
    requires unit > 1 && n / unit == kept && n % unit == m
    ensures HalfEven(n, unit) == kept + Up(kept, m, unit)
  {
  }

  lemma Units(q: nat, half: nat, t: nat, unit: nat)
    ensures (q * 2 * half + t) * unit == q * (2 * half * unit) + t * unit
  {
    assert (q * 2 * half) * unit == q * (2 * half * unit);
  }

  /** Rounding up reaches half a cent from below exactly in the last unit before it. */
  lemma OneShort(t: nat, m: nat, unit: nat, half: nat)
    requires m < unit && unit > 1 && half > 0 && 2 * half * unit == RATE_SCALE
    ensures (t >= half <==> t + Up(t, m, unit) >= half)
       <==> (|| 2 * (t * unit + m) >= RATE_SCALE
             || 2 * (t * unit + m) + unit < RATE_SCALE
             || (half % 2 == 1 && 2 * (t * unit + m) + unit == RATE_SCALE))
  {
    AtLeastHalf(t, unit, half, m);
    if t + 1 < half {
      ProductMonotone(t + 2, half, unit);
      assert (t + 2) * unit == t * unit + 2 * unit;
      FarFromHalf(t * unit, m, unit);
    } else if t + 1 == half {
      assert half * unit == t * unit + unit;
      LastUnit(t, t * unit, m, unit);
    }
  }

  lemma FarFromHalf(x: nat, m: nat, unit: nat)
    requires m < unit && 2 * (x + 2 * unit) <= RATE_SCALE
    ensures 2 * (x + m) + unit < RATE_SCALE
  {
  }

  lemma LastUnit(t: nat, x: nat, m: nat, unit: nat)
    requires m < unit && 2 * (x + unit) == RATE_SCALE
    ensures Up(t, m, unit) == 0
       <==> 2 * (x + m) + unit < RATE_SCALE || ((t + 1) % 2 == 1 && 2 * (x + m) + unit == RATE_SCALE)
  {
  }

  lemma Split(n: nat, unit: nat, half: nat, q: nat, t: nat, m: nat)
    requires unit > 1 && 2 * half * unit == RATE_SCALE
    requires q == n / RATE_SCALE && t == n % RATE_SCALE / unit && m == n % RATE_SCALE % unit
    ensures n / unit == q * 2 * half + t && n % unit == m && t < 2 * half && n % RATE_SCALE == t * unit + m
  {
    var r := n % RATE_SCALE;
    assert r == t * unit + m;
    assert n == q * RATE_SCALE + r;
    assert q * 2 * half * unit == q * (2 * half * unit);
    DivisionIs(n, unit, q * 2 * half + t, m);
    if t >= 2 * half {
      ProductMonotone(2 * half, t, unit);
      assert false;
    }
  }

  lemma UpIf(quotient: nat, half: nat, q: nat, t: nat)
    requires quotient == q * 2 * half + t
    ensures quotient % 2 == t % 2
  {
    var x := q * half;
    assert q * 2 * half == 2 * x;
  }

  lemma AtLeastHalf(t: nat, unit: nat, half: nat, m: nat)
    requires m < unit && 2 * half * unit == RATE_SCALE
    ensures 2 * (t * unit + m) >= RATE_SCALE <==> t >= half
  {
    if t >= half {
      ProductMonotone(half, t, unit);
    } else {
      ProductMonotone(t + 1, half, unit);
    }
  }

  lemma QuantizedPart(q: nat, part: nat, kept: nat, unit: nat, half: nat)
    requires part == kept * unit && kept <= 2 * half && 2 * half * unit == RATE_SCALE
    ensures HalfUp(q * RATE_SCALE + part, RATE_SCALE) == q + if 2 * part >= RATE_SCALE then 1 else 0
  {
    ProductMonotone(kept, 2 * half, unit);
  }

  lemma FineUnits(n: nat, k: nat)
    requires 1 <= k <= 7
    ensures HalfUp(HalfEven(n, Pow10(k)) * Pow10(k), RATE_SCALE) == HalfUp(n, RATE_SCALE)
       <==> (|| 2 * (n % RATE_SCALE) >= RATE_SCALE
             || 2 * (n % RATE_SCALE) + Pow10(k) < RATE_SCALE
             || (k == 7 && 2 * (n % RATE_SCALE) + Pow10(k) == RATE_SCALE))
  {
    hide HalfEven, HalfUp, Pow10;
    SmallPowers();
    var half := 5 * Pow10(7 - k);
    assert 2 * half * Pow10(k) == RATE_SCALE && (half % 2 == 1 <==> k == 7) by {
      PowerSplit(k);
    }
    FineUnit(n, Pow10(k), half);
  }

  lemma PowerSplit(k: nat)
    requires 1 <= k <= 7
    ensures 2 * (5 * Pow10(7 - k)) * Pow10(k) == RATE_SCALE
    ensures 5 * Pow10(7 - k) % 2 == 1 <==> k == 7
    ensures Pow10(k) > 1
  {
    SmallPowers();
    match k
    case 1 =>
    case 2 =>
    case 3 =>
    case 4 =>
    case 5 =>
    case 6 =>
    case 7 =>
  }

  lemma WholeUnit(n: nat)
    ensures HalfUp(HalfEven(n, RATE_SCALE) * RATE_SCALE, RATE_SCALE) == HalfEven(n, RATE_SCALE)
    ensures HalfEven(n, RATE_SCALE) == HalfUp(n, RATE_SCALE)
       <==> 2 * (n % RATE_SCALE) != RATE_SCALE || n / RATE_SCALE % 2 == 1
  {
  }

  lemma RoundingShows(n: nat)
    requires Digits(n) <= 36
    ensures HalfUp(RoundToPrecision(n), RATE_SCALE) == HalfUp(n, RATE_SCALE) <==> RoundsExactly(n)
  {
    hide Digits, Pow10, HalfEven, HalfUp;
    var k := Digits(n) - PRECISION;
    if k == 8 {
      SmallPowers();
      WholeUnit(n);
    } else if k > 0 {
      FineUnits(n, k);
    }
  }

  // ----- the size of a rounded product

  lemma LargePowers()
    ensures Pow10(28) == 10_000_000_000_000_000_000_000_000_000
    ensures Pow10(35) == 10_000_000 * Pow10(28) && Pow10(36) == RATE_SCALE * Pow10(28)
  {
    Pow10Value();
    SmallPowers();
    Pow10Add(7, 28);
    Pow10Add(8, 28);
  }

  /** Rounding to 28 digits keeps a number between the powers of ten around it. */
  lemma RoundBounds(n: nat)
    requires n > 0
    ensures Pow10(Digits(n) - 1) <= RoundToPrecision(n) <= Pow10(Digits(n))
  {
    hide Digits, Pow10, HalfEven;
    DigitsBound(n);
    var k := Digits(n) - PRECISION;
    if k > 0 {
      Pow10Add(27, k);
      Pow10Add(28, k);
      KeptDigits(n, Pow10(k), Pow10(27));
      CappedDigits(n, Pow10(k), Pow10(28));
    }
  }

  lemma CappedDigits(n: nat, unit: nat, most: nat)
    requires unit > 0 && n < most * unit
    ensures HalfEven(n, unit) * unit <= most * unit
  {
    var q := n / unit;
    if q >= most {
      ProductMonotone(most, q, unit);
      assert false;
    }
    ProductMonotone(HalfEven(n, unit), most, unit);
  }

  lemma DigitsAtMost(n: nat, k: nat)
    requires k > 0
    ensures Digits(n) <= k <==> n < Pow10(k)
  {
    DigitsBound(n);
    if Digits(n) <= k {
      Pow10Monotone(Digits(n), k);
    } else {
      Pow10Monotone(k, Digits(n) - 1);
    }
  }

  /** decimal.InvalidOperation is raised exactly from here on: the nearest number of cents, ties to even,
      has more than 28 digits. */
  lemma ConversionSucceeds(amount: int, rate: int)
    ensures ConvertAmount(amount, rate).Some?
       <==> Abs(amount * rate) < 999_999_999_999_999_999_999_999_999_950_000_000
    ensures ConvertAmount(amount, rate).Some? ==> Digits(Abs(amount * rate)) <= 36
  {
    hide Digits, Pow10, HalfEven;
    var n := Abs(amount * rate);
    LargePowers();
    DigitsAtMost(HalfUp(RoundToPrecision(n), RATE_SCALE), PRECISION);
    DigitsAtMost(n, 35);
    DigitsAtMost(n, 36);
    DigitsBound(n);
    if n > 0 {
      RoundBounds(n);
    }
    if Digits(n) <= 35 {
      Pow10Monotone(Digits(n), 35);
      assert RoundToPrecision(n) <= Pow10(35);
    } else if Digits(n) == 36 {
      SmallPowers();
      WholeUnit(n);
      LastCents(n);
    } else {
      Pow10Monotone(36, Digits(n) - 1);
    }
  }

  lemma LastCents(n: nat)
    ensures HalfEven(n, RATE_SCALE) < 10_000_000_000_000_000_000_000_000_000
       <==> n < 999_999_999_999_999_999_999_999_999_950_000_000
  {
  }

  lemma NearestIsHalfUp(cents: nat, amount: int, rate: int)
    ensures IsNearest(if amount * rate < 0 then 0 - cents else cents, amount, rate)
       <==> cents == HalfUp(Abs(amount * rate), RATE_SCALE)
  {
  }

  /** Of all conversions that do not raise, exactly these yield the nearest number of cents. */
  lemma ConversionIsNearest(amount: int, rate: int, cents: int)
    requires ConvertAmount(amount, rate) == Some(cents)
    ensures IsNearest(cents, amount, rate) <==> RoundsExactly(Abs(amount * rate))
  {
    hide Digits, Pow10, HalfEven, HalfUp, RoundToPrecision, RoundsExactly, IsNearest;
    var n := Abs(amount * rate);
    ConversionSucceeds(amount, rate);
    RoundingShows(n);
    NearestIsHalfUp(HalfUp(RoundToPrecision(n), RATE_SCALE), amount, rate);
  }

  // ----- order and error

  lemma HalfEvenMonotone(m: nat, n: nat, unit: nat)
    requires unit > 0 && m <= n
    ensures HalfEven(m, unit) <= HalfEven(n, unit)
  {
    var p, q := m / unit, n / unit;
    assert m == p * unit + m % unit && n == q * unit + n % unit;
    if p > q {
      ProductMonotone(q + 1, p, unit);
      assert false;
    }
  }

  lemma RoundMonotone(m: nat, n: nat)
    requires m <= n
    ensures RoundToPrecision(m) <= RoundToPrecision(n)
  {
    hide Digits, Pow10, HalfEven;
    DigitsBound(m);
    DigitsBound(n);
    DigitsAtMost(m, Digits(n));
    if m == 0 {
      assert RoundToPrecision(m) == 0;
    } else if Digits(m) == Digits(n) {
      if Digits(n) > PRECISION {
        var unit := Pow10(Digits(n) - PRECISION);
        HalfEvenMonotone(m, n, unit);
        ProductMonotone(HalfEven(m, unit), HalfEven(n, unit), unit);
      }
    } else {
      RoundBounds(m);
      RoundBounds(n);
      Pow10Monotone(Digits(m), Digits(n) - 1);
    }
  }

  /** A larger product never converts to less. */
  lemma ConversionIsMonotone(amount: int, rate: int, amount': int, rate': int, cents: int, cents': int)
    requires ConvertAmount(amount, rate) == Some(cents) && ConvertAmount(amount', rate') == Some(cents')
    requires amount * rate <= amount' * rate'
    ensures cents <= cents'
  {
    hide Digits, RoundToPrecision;
    var m, n := Abs(amount * rate), Abs(amount' * rate');
    if m <= n {
      RoundMonotone(m, n);
    } else {
      RoundMonotone(n, m);
    }
  }

  /** A conversion is off by at most half a cent. */
  lemma ConversionError(amount: int, rate: int, cents: int)
    requires ConvertAmount(amount, rate) == Some(cents) && FitsColumn(cents)
    ensures 2 * Abs(cents * RATE_SCALE - amount * rate) <= RATE_SCALE
  {
    ConversionIsExact(amount, rate, cents);
  }
}
