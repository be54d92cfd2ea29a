/**
 * Water-bill arithmetic of src/utils/formatters.js: the four-band progressive
 * tariff with 10% VAT rounded to a whole currency unit, and the whole number of
 * days between two instants.
 *
 * Amounts are exact reals: the VAT multiplier 1.1 is the rational 11/10 and
 * `Math.round(x)` is `Floor(x + 1/2)`, which is what `Math.round` computes for
 * every finite x (halves go up, also for negative x).
 */
module Formatters {
  import opened Js

  /** Price per cubic metre in each band. */
  datatype Rates = Rates(base: real, tier1: real, tier2: real, tier3: real)

  /** The default rates of `calculateWaterAmount`. */
  const DefaultRates: Rates := Rates(5700.0, 7000.0, 8500.0, 10000.0)

  /** The VAT multiplier. */
  const Vat: real := 1.1

  /** 1000 * 60 * 60 * 24 milliseconds. */
  const MsPerDay: int := 86400000

  predicate NonNegativeRates(r: Rates) {
    r.base >= 0.0 && r.tier1 >= 0.0 && r.tier2 >= 0.0 && r.tier3 >= 0.0
  }

  /** `Math.round`: the nearest integer, halves rounded up. */
  function Round(x: real): (n: int)
    ensures x - 0.5 < n as real <= x + 0.5
  {
    (x + 0.5).Floor
  }

  /**
   * The amount before VAT, as the source computes it: one formula per band,
   * chosen by an if/else chain in which each boundary (10, 20, 30) belongs to
   * the lower band.
   */
  function Subtotal(consumption: real, r: Rates): real {
    if consumption <= 10.0 then
      consumption * r.base
    else if consumption <= 20.0 then
      10.0 * r.base + (consumption - 10.0) * r.tier1
    else if consumption <= 30.0 then
      10.0 * r.base + 10.0 * r.tier1 + (consumption - 20.0) * r.tier2
    else
      10.0 * r.base + 10.0 * r.tier1 + 10.0 * r.tier2 + (consumption - 30.0) * r.tier3
  }

  /** `calculateWaterAmount(consumption, rates)`. */
  function CalculateWaterAmount(consumption: real, r: Rates := DefaultRates): (amount: int)
    ensures Subtotal(consumption, r) * Vat - 0.5 < amount as real <= Subtotal(consumption, r) * Vat + 0.5
  {
    Round(Subtotal(consumption, r) * Vat)
  }

  // ----- An independent reference: marginal (progressive) pricing -----

  /** The part of `c` that falls in the band `(lo, lo + width]`. */
  function Portion(c: real, lo: real, width: real): real {
    if c <= lo then 0.0 else if c >= lo + width then width else c - lo
  }

  /** The part of `c` above `lo`. */
  function Excess(c: real, lo: real): real {
    if c <= lo then 0.0 else c - lo
  }

  /** Each band's rate applied only to the consumption inside that band. */
  function MarginalSubtotal(c: real, r: Rates): real {
    r.base * Portion(c, 0.0, 10.0) + r.tier1 * Portion(c, 10.0, 10.0)
    + r.tier2 * Portion(c, 20.0, 10.0) + r.tier3 * Excess(c, 30.0)
  }

  /**
   * For every non-negative consumption the if/else chain is progressive
   * pricing: the formulas of adjacent bands agree at 10, 20 and 30, and each
   * rate is charged only on the cubic metres of its own band.
   */
  lemma {:induction false} SubtotalIsMarginal(c: real, r: Rates)
    requires c >= 0.0
    ensures Subtotal(c, r) == MarginalSubtotal(c, r)
  {
    if c <= 10.0 {
      assert Portion(c, 0.0, 10.0) == c;
    } else if c <= 20.0 {
      assert Portion(c, 10.0, 10.0) == c - 10.0;
    } else if c <= 30.0 {
      assert Portion(c, 20.0, 10.0) == c - 20.0;
    } else {
      assert Excess(c, 30.0) == c - 30.0;
    }
  }

  /** Zero consumption costs nothing, whatever the rates. */
  lemma AmountAtZero(r: Rates)
    ensures CalculateWaterAmount(0.0, r) == 0
  {
  }

  /**
   * Which rates a consumption uses: up to 10 m3 only the base rate, up to 20 only
   * base and tier1 (20 has no tier2 term), up to 30 no tier3 term.
   */
  lemma {:induction false} RatesUsed(c: real, r: Rates, r': Rates)
    ensures c <= 10.0 && r.base == r'.base ==> CalculateWaterAmount(c, r) == CalculateWaterAmount(c, r')
    ensures c <= 20.0 && r.base == r'.base && r.tier1 == r'.tier1
            ==> CalculateWaterAmount(c, r) == CalculateWaterAmount(c, r')
    ensures c <= 30.0 && r.base == r'.base && r.tier1 == r'.tier1 && r.tier2 == r'.tier2
            ==> CalculateWaterAmount(c, r) == CalculateWaterAmount(c, r')
  {
  }

  /** Up to 10 m3 the amount is `round(consumption * base * 1.1)`. */
  lemma FirstBand(c: real, r: Rates)
    requires c <= 10.0
    ensures CalculateWaterAmount(c, r) == Round(c * r.base * Vat)
  {
  }

  /** Just above 20 m3 the tier2 rate is charged: its price changes the subtotal. */
  lemma {:induction false} Tier2ChargedAbove20(c: real, r: Rates, t: real)
    requires 20.0 < c <= 30.0 && t != r.tier2
    ensures Subtotal(c, r) != Subtotal(c, r.(tier2 := t))
  {
    var d := c - 20.0;
    assert d > 0.0;
    assert Subtotal(c, r) - Subtotal(c, r.(tier2 := t)) == d * (r.tier2 - t);
    NonZeroProduct(d, r.tier2 - t);
  }

  lemma NonZeroProduct(a: real, b: real)
    requires a != 0.0 && b != 0.0
    ensures a * b != 0.0
  {
  }

  lemma MulMonotone(a: real, b: real, k: real)
    requires a <= b && k >= 0.0
    ensures a * k <= b * k && k * a <= k * b
  {
    assert b * k - a * k == (b - a) * k;
  }

  lemma {:induction false} PortionMonotone(c1: real, c2: real, lo: real, width: real)
    requires c1 <= c2 && width >= 0.0
    ensures Portion(c1, lo, width) <= Portion(c2, lo, width)
    ensures Excess(c1, lo) <= Excess(c2, lo)
  {
  }

  /** The marginal subtotal never decreases as consumption grows. */
  lemma {:induction false} MarginalMonotone(c1: real, c2: real, r: Rates)
    requires NonNegativeRates(r) && c1 <= c2
    ensures MarginalSubtotal(c1, r) <= MarginalSubtotal(c2, r)
  {
    PortionMonotone(c1, c2, 0.0, 10.0);
    PortionMonotone(c1, c2, 10.0, 10.0);
    PortionMonotone(c1, c2, 20.0, 10.0);
    PortionMonotone(c1, c2, 30.0, 0.0);
    WeightedSumMonotone(r,
      Portion(c1, 0.0, 10.0), Portion(c1, 10.0, 10.0), Portion(c1, 20.0, 10.0), Excess(c1, 30.0),
      Portion(c2, 0.0, 10.0), Portion(c2, 10.0, 10.0), Portion(c2, 20.0, 10.0), Excess(c2, 30.0));
  }

  /** Weighting by non-negative rates keeps a component-wise order. */
  lemma WeightedSumMonotone(r: Rates, p1: real, p2: real, p3: real, p4: real, q1: real, q2: real, q3: real, q4: real)
    requires NonNegativeRates(r) && p1 <= q1 && p2 <= q2 && p3 <= q3 && p4 <= q4
    ensures r.base * p1 + r.tier1 * p2 + r.tier2 * p3 + r.tier3 * p4
         <= r.base * q1 + r.tier1 * q2 + r.tier2 * q3 + r.tier3 * q4
  {
    MulMonotone(p1, q1, r.base);
    MulMonotone(p2, q2, r.tier1);
    MulMonotone(p3, q3, r.tier2);
    MulMonotone(p4, q4, r.tier3);
    SumMonotone(r.base * p1, r.tier1 * p2, r.tier2 * p3, r.tier3 * p4,
                r.base * q1, r.tier1 * q2, r.tier2 * q3, r.tier3 * q4);
  }

  lemma SumMonotone(a1: real, a2: real, a3: real, a4: real, b1: real, b2: real, b3: real, b4: real)
    requires a1 <= b1 && a2 <= b2 && a3 <= b3 && a4 <= b4
    ensures a1 + a2 + a3 + a4 <= b1 + b2 + b3 + b4
  {
  }

  /** With non-negative rates the subtotal never decreases as consumption grows. */
  lemma {:induction false} SubtotalMonotone(c1: real, c2: real, r: Rates)
    requires NonNegativeRates(r) && c1 <= c2
    ensures Subtotal(c1, r) <= Subtotal(c2, r)
  {
    if c2 < 0.0 {
      calc {
        Subtotal(c1, r);
        c1 * r.base;
      <= { MulMonotone(c1, c2, r.base); }
        c2 * r.base;
        Subtotal(c2, r);
      }
    } else if c1 < 0.0 {
      calc {
        Subtotal(c1, r);
        c1 * r.base;
      <= { MulMonotone(c1, 0.0, r.base); }
        0.0;
      <= { SubtotalNonNegative(c2, r); }
        Subtotal(c2, r);
      }
    } else {
      SubtotalIsMarginal(c1, r);
      SubtotalIsMarginal(c2, r);
      MarginalMonotone(c1, c2, r);
    }
  }

  /** Non-negative consumption at non-negative rates costs a non-negative subtotal. */
  lemma {:induction false} SubtotalNonNegative(c: real, r: Rates)
    requires NonNegativeRates(r) && c >= 0.0
    ensures Subtotal(c, r) >= 0.0
  {
    SubtotalIsMarginal(c, r);
    SubtotalIsMarginal(0.0, r);
    MarginalMonotone(0.0, c, r);
  }

  /** With non-negative rates the billed amount is non-decreasing in consumption. */
  lemma {:induction false} AmountMonotone(c1: real, c2: real, r: Rates)
    requires NonNegativeRates(r) && c1 <= c2
    ensures CalculateWaterAmount(c1, r) <= CalculateWaterAmount(c2, r)
  {
    SubtotalMonotone(c1, c2, r);
    MulMonotone(Subtotal(c1, r), Subtotal(c2, r), Vat);
  }

  /** With non-negative rates a non-negative consumption is billed a non-negative amount. */
  lemma {:induction false} AmountNonNegative(c: real, r: Rates)
    requires NonNegativeRates(r) && c >= 0.0
    ensures CalculateWaterAmount(c, r) >= 0
  {
    AmountMonotone(0.0, c, r);
  }

  /** The documented example: 25 m3 at the default rates is 169500 before VAT, 186450 after. */
  lemma TwentyFiveCubicMetres()
    ensures Subtotal(25.0, DefaultRates) == 169500.0
    ensures CalculateWaterAmount(25.0) == 186450
  {
  }

  /**
   * At the default rates a non-negative consumption is priced at 0 exactly when
   * it is below 1/12540 m3: a positive consumption can still yield a 0 amount.
   */
  lemma {:induction false} ZeroAmountIffTiny(c: real)
    requires c >= 0.0
    ensures CalculateWaterAmount(c) == 0 <==> c < 1.0 / 12540.0
  {
    var t := 1.0 / 12540.0;
    if c < t {
      FirstBand(c, DefaultRates);
      MulMonotone(0.0, c, DefaultRates.base * Vat);
      assert c * DefaultRates.base * Vat == c * (DefaultRates.base * Vat);
      assert c * (DefaultRates.base * Vat) < 0.5;
    } else {
      FirstBand(t, DefaultRates);
      assert t * DefaultRates.base * Vat == 0.5;
      assert CalculateWaterAmount(t) == 1;
      AmountMonotone(t, c, DefaultRates);
    }
  }

  /** Each boundary 10, 20 and 30 is priced in the lower band. */
  lemma BoundariesInLowerBand(r: Rates)
    ensures Subtotal(10.0, r) == 10.0 * r.base
    ensures Subtotal(20.0, r) == 10.0 * r.base + 10.0 * r.tier1
    ensures Subtotal(30.0, r) == 10.0 * r.base + 10.0 * r.tier1 + 10.0 * r.tier2
  {
  }

  /**
   * `daysBetween(start, end)`: 0 when `start` is falsy, otherwise the number of
   * whole days in `|end - start|` milliseconds. Instants are millisecond counts.
   */
  function DaysBetween(start: Option<int>, end: int): (days: int)
    ensures start.None? ==> days == 0
    ensures days >= 0
    ensures start.Some? ==> days * MsPerDay <= Abs(end - start.value) < (days + 1) * MsPerDay
  {
    if start.None? then 0 else Abs(end - start.value) / MsPerDay
  }

  /** The day count does not depend on which instant comes first. */
  lemma DaysBetweenSymmetric(a: int, b: int)
    ensures DaysBetween(Some(a), b) == DaysBetween(Some(b), a)
  {
  }
}
