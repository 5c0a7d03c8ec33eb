/**
 * Decimal amounts as `BigDecimal` holds them (an unscaled integer and a
 * scale) and `toPaise`, the exact conversion of an amount to the gateway's
 * minor unit: the amount times 100 as a Java `long`, or nothing where
 * `longValueExact` throws because the product has a fractional part or
 * does not fit.
 */
module Money {
  import opened Options
  import opened Bookings

  /** The value `unscaled / 10^scale`. */
  datatype Decimal = Decimal(unscaled: int, scale: nat)

  function Pow10(n: nat): (r: nat)
    ensures r >= 1
  {
    if n == 0 then 1 else 10 * Pow10(n - 1)
  }

  const LongMin: int := -0x8000_0000_0000_0000
  const LongMax: int := 0x7FFF_FFFF_FFFF_FFFF

  predicate InLongRange(v: int)
  {
    LongMin <= v <= LongMax
  }

  /** `p` minor units are exactly the amount `a`: `p / 100 == a`. */
  predicate IsPaiseOf(p: int, a: Decimal)
  {
    p * Pow10(a.scale) == a.unscaled * 100
  }

  /** Cancelling a positive factor. */
  lemma CancelFactor(p: int, q: int, d: int)
    requires d >= 1 && p * d == q * d
    ensures p == q
  {
  }

  /** A nonzero multiple of a positive factor is at least that factor away from zero. */
  lemma MultipleBounds(k: int, d: int)
    requires d >= 1
    ensures k >= 1 ==> k * d >= d
    ensures k <= -1 ==> k * d <= -d
  {
    if k >= 1 {
      assert k * d == (k - 1) * d + d;
    } else if k <= -1 {
      assert k * d == (k + 1) * d - d;
    }
  }

  /** An exact product divides evenly and its quotient is the factor. */
  lemma ExactQuotient(p: int, d: int)
    requires d >= 1
    ensures (p * d) % d == 0 && (p * d) / d == p
  {
    var q, r := (p * d) / d, (p * d) % d;
    assert p * d == q * d + r && 0 <= r < d;
    assert (p - q) * d == p * d - q * d;
    MultipleBounds(p - q, d);
  }

  /**
   * `toPaise`: `amount.multiply(100).longValueExact()`. The answer is the
   * one exact minor-unit count in the `long` range; `None` (the
   * `ArithmeticException`) exactly when there is no such count.
   */
  function ToPaise(a: Decimal): (r: Option<int>)
    ensures r.Some? ==> InLongRange(r.value) && IsPaiseOf(r.value, a)
    ensures r.None? ==> forall p :: IsPaiseOf(p, a) ==> !InLongRange(p)
  {
    var product := a.unscaled * 100;
    var d := Pow10(a.scale);
    if product % d == 0 && InLongRange(product / d) then
      Some(product / d)
    else
      assert forall p :: IsPaiseOf(p, a) ==> product % d == 0 && product / d == p by {
        forall p | IsPaiseOf(p, a)
          ensures product % d == 0 && product / d == p
        {
          ExactQuotient(p, d);
        }
      }
      None
  }

  /** At most one count is exact. */
  lemma PaiseIsUnique(p: int, q: int, a: Decimal)
    requires IsPaiseOf(p, a) && IsPaiseOf(q, a)
    ensures p == q
  {
    CancelFactor(p, q, Pow10(a.scale));
  }

  /** An amount held in hundredths (scale 2, the column's scale) converts to that same count when it fits a `long`. */
  lemma {:induction false} ToPaiseOfHundredths(hundredths: int)
    requires InLongRange(hundredths)
    ensures ToPaise(Decimal(hundredths, 2)) == Some(hundredths)
  {
    assert Pow10(2) == 100 by {
      assert Pow10(1) == 10;
    }
    assert IsPaiseOf(hundredths, Decimal(hundredths, 2));
  }

  /** Every amount the `total_amount` column can hold converts. */
  lemma ToPaiseOfStoredAmount(hundredths: int)
    requires FitsAmountColumn(hundredths)
    ensures ToPaise(Decimal(hundredths, 2)) == Some(hundredths)
  {
    ToPaiseOfHundredths(hundredths);
  }

  /** Trailing zeros do not matter: 12.5 and 12.50 convert alike. */
  lemma ToPaiseIgnoresTrailingZeros(unscaled: int, scale: nat)
    ensures ToPaise(Decimal(unscaled * 10, scale + 1)) == ToPaise(Decimal(unscaled, scale))
  {
    var a, b := Decimal(unscaled, scale), Decimal(unscaled * 10, scale + 1);
    forall p
      ensures IsPaiseOf(p, a) <==> IsPaiseOf(p, b)
    {
      var d := Pow10(scale);
      assert Pow10(scale + 1) == d * 10;
      assert p * (d * 10) == (p * d) * 10;
      assert unscaled * 10 * 100 == (unscaled * 100) * 10;
      if IsPaiseOf(p, b) {
        CancelFactor(p * d, unscaled * 100, 10);
      }
    }
    if ToPaise(a).Some? {
      assert IsPaiseOf(ToPaise(a).value, b);
      PaiseIsUnique(ToPaise(a).value, ToPaise(b).value, b);
    }
  }

  /** A thousandth of a unit is a tenth of a paisa: the conversion fails. */
  lemma ToPaiseRejectsFractionalPaise()
    ensures ToPaise(Decimal(1, 3)) == None
  {
    assert Pow10(3) == 1000 by {
      assert Pow10(2) == 100 by {
        assert Pow10(1) == 10;
      }
    }
  }

  /** An amount whose minor-unit count passes the `long` range fails too. */
  lemma ToPaiseRejectsOverflow()
    ensures ToPaise(Decimal(LongMax, 0)) == None
  {
    assert Pow10(0) == 1;
  }
}
