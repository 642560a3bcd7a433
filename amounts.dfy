/** The tax-inclusive amount calculator of the invoice page: the discounted
    MRP carries 18% GST, which is split into equal central (CGST) and state
    (SGST) halves. */
module Amounts {
  import opened Types
  import opened NumberText

  /** The GST rate is 18%, included in the price. */
  const GstFactor: real := 1.18

  /** calculateAmounts: each step rounds with toFixed(2) as the page does,
      and the total is the discounted price, unrounded. */
  function CalculateAmounts(data: InvoiceData): (a: CalculatedAmounts)
    ensures a.totalAmount == data.mrp - data.discount
    ensures a.sgst == a.cgst
    ensures IsCents(a.taxableAmount) && IsCents(a.gstAmount) && IsCents(a.cgst)
    ensures -0.005 <= a.taxableAmount - (data.mrp - data.discount) / GstFactor <= 0.005
    ensures -0.005 <= a.gstAmount - ((data.mrp - data.discount) - a.taxableAmount) <= 0.005
    ensures -0.005 <= a.cgst - a.gstAmount / 2.0 <= 0.005
  {
    var discountedMrp := data.mrp - data.discount;
    var taxableAmount := Round2(discountedMrp / GstFactor);
    var gstAmount := Round2(discountedMrp - taxableAmount);
    var cgst := Round2(gstAmount / 2.0);
    CalculatedAmounts(taxableAmount, gstAmount, discountedMrp, cgst, cgst)
  }

  /** Only MRP and discount matter: two invoices that agree on them get the
      same breakdown, whatever their other fields. */
  lemma CalculateDependsOnPriceOnly(d1: InvoiceData, d2: InvoiceData)
    requires d1.mrp - d1.discount == d2.mrp - d2.discount
    ensures CalculateAmounts(d1) == CalculateAmounts(d2)
  {
  }

  /** When the discounted price is a whole number of paise, the taxable
      amount and the GST add up to the total exactly: the second rounding
      has nothing to round. */
  lemma TaxableAndGstMakeTotal(data: InvoiceData)
    requires IsCents(data.mrp - data.discount)
    ensures var a := CalculateAmounts(data);
            a.taxableAmount + a.gstAmount == a.totalAmount
  {
    var d := data.mrp - data.discount;
    var t := Round2(d / GstFactor);
    CentsDifference(d, t);
    Round2OfCents(d - t);
  }

  lemma CentsDifference(x: real, y: real)
    requires IsCents(x) && IsCents(y)
    ensures IsCents(x - y)
  {
    var i, j := (x * 100.0).Floor, (y * 100.0).Floor;
    assert (x - y) * 100.0 == (i - j) as real;
  }

  // ---------------------------------------------------------------------------
  // The same calculation in whole paise

  /** r is n / d rounded to the nearest integer, halves away from zero:
      r is at most half a unit from n / d, and when exactly half a unit
      away it lies on the far side of zero. */
  predicate NearestHalfAway(n: int, d: int, r: int)
    requires d > 0
  {
    var e := 2 * (d * r - n);
    -d <= e <= d && (e == d ==> n >= 0) && (e == -d ==> n < 0)
  }

  function DivRoundHalfAway(n: int, d: int): (r: int)
    requires d > 0
    ensures NearestHalfAway(n, d, r)
  {
    if n >= 0 then (2 * n + d) / (2 * d) else -((-2 * n + d) / (2 * d))
  }

  /** There is only one such rounding, so DivRoundHalfAway is it. */
  lemma NearestIsUnique(n: int, d: int, r1: int, r2: int)
    requires d > 0 && NearestHalfAway(n, d, r1) && NearestHalfAway(n, d, r2)
    ensures r1 == r2
  {
    if r1 != r2 {
      var lo, hi := if r1 < r2 then r1 else r2, if r1 < r2 then r2 else r1;
      // a full unit apart, the two would both be ties, on opposite sides
      AtLeastOneStep(d, lo, hi);
    }
  }

  lemma AtLeastOneStep(d: int, lo: int, hi: int)
    requires d > 0 && lo < hi
    ensures d * hi >= d * lo + d
  {
    var k := hi - lo - 1;
    assert d * hi == d * lo + d + d * k;
  }

  /** The breakdown in paise for a discounted price of p paise. */
  datatype Paise = Paise(taxable: int, gst: int, total: int, cgst: int, sgst: int)

  /** The paise breakdown: the taxable amount is the price divided by 1.18
      rounded to the nearest paisa, the GST is the rest of the price, and
      each of CGST and SGST is the GST halved and rounded to the nearest
      paisa, halves away from zero throughout. */
  function CalculatePaise(p: int): (r: Paise)
    ensures NearestHalfAway(100 * p, 118, r.taxable)
    ensures r.taxable + r.gst == p && r.total == p
    ensures NearestHalfAway(r.gst, 2, r.cgst) && r.sgst == r.cgst
  {
    var taxable := DivRoundHalfAway(100 * p, 118);
    var gst := p - taxable;
    var cgst := DivRoundHalfAway(gst, 2);
    Paise(taxable, gst, p, cgst, cgst)
  }

  function Rupees(paise: int): real { paise as real / 100.0 }

  /** For the two divisors the page uses (118 for the taxable step, 2 for
      the halving), Round2 of a ratio of integers is the integer rounding of
      that ratio taken in hundredths: the toFixed(2) step, in whole numbers. */
  lemma Round2Ratio(n: int, d: int)
    requires d == 118 || d == 2
    ensures Round2((n as real) / (100.0 * d as real)) == Rupees(DivRoundHalfAway(n, d))
  {
    RoundCentsRatio(n, d);
  }

  lemma RoundCentsRatio(n: int, d: int)
    requires d == 118 || d == 2
    ensures RoundCents((n as real) / (100.0 * d as real)) == DivRoundHalfAway(n, d)
  {
    var x := (n as real) / (100.0 * d as real);
    if n >= 0 {
      HalfUpRatio(n, d);
    } else {
      var y := ((-n) as real) / (100.0 * d as real);
      assert x == -y;
      HalfUpRatio(-n, d);
      RoundCentsNegate(y);
    }
  }

  lemma HalfUpRatio(n: nat, d: int)
    requires d == 118 || d == 2
    ensures RoundCents((n as real) / (100.0 * d as real)) == (2 * n + d) / (2 * d)
  {
    assert (n as real) / (100.0 * d as real) * 100.0 + 0.5 == ((2 * n + d) as real) / ((2 * d) as real);
    FloorOfRatio(2 * n + d, 2 * d);
  }

  /** The calculator agrees with the paise computation whenever the
      discounted price is a whole number of paise. */
  lemma CalculateInPaise(data: InvoiceData, p: int)
    requires data.mrp - data.discount == Rupees(p)
    ensures var a := CalculateAmounts(data);
            var r := CalculatePaise(p);
            a == CalculatedAmounts(Rupees(r.taxable), Rupees(r.gst), Rupees(r.total), Rupees(r.cgst), Rupees(r.sgst))
  {
    var r := CalculatePaise(p);
    TaxableInPaise(p);
    GstInPaise(p, r.taxable);
    CgstInPaise(r.gst);
  }

  lemma TaxableInPaise(p: int)
    ensures Round2(Rupees(p) / GstFactor) == Rupees(DivRoundHalfAway(100 * p, 118))
  {
    assert Rupees(p) / GstFactor == ((100 * p) as real) / (100.0 * 118 as real);
    Round2Ratio(100 * p, 118);
  }

  lemma GstInPaise(p: int, t: int)
    ensures Round2(Rupees(p) - Rupees(t)) == Rupees(p - t)
  {
    assert Rupees(p) - Rupees(t) == Rupees(p - t);
    RupeesAreCents(p - t);
    Round2OfCents(Rupees(p - t));
  }

  lemma RupeesAreCents(n: int)
    ensures IsCents(Rupees(n))
  {
    assert Rupees(n) * 100.0 == n as real;
  }

  lemma CgstInPaise(g: int)
    ensures Round2(Rupees(g) / 2.0) == Rupees(DivRoundHalfAway(g, 2))
  {
    assert Rupees(g) / 2.0 == (g as real) / (100.0 * 2 as real);
    Round2Ratio(g, 2);
  }

  /** On exact values, CGST and SGST are each half the GST rounded half away
      from zero, so with an odd number of paise of GST the half paisa is
      counted twice: their sum overshoots the GST by one paisa (away from
      zero). */
  lemma HalvesOfGst(g: int)
    ensures var c := DivRoundHalfAway(g, 2);
            c + c == g + (if g % 2 == 0 then 0 else if g > 0 then 1 else -1)
  {
    var c := DivRoundHalfAway(g, 2);
    if g >= 0 {
      assert c == (2 * g + 2) / 4;
    } else {
      assert c == -((-2 * g + 2) / 4);
    }
  }

  /** CGST + SGST against GST for a price in whole paise. */
  lemma CgstPlusSgst(data: InvoiceData, p: int)
    requires data.mrp - data.discount == Rupees(p)
    ensures var a := CalculateAmounts(data);
            var g := CalculatePaise(p).gst;
            a.cgst + a.sgst == a.gstAmount + Rupees(if g % 2 == 0 then 0 else if g > 0 then 1 else -1)
  {
    CalculateInPaise(data, p);
    HalvesOfGst(CalculatePaise(p).gst);
  }

  // ---------------------------------------------------------------------------
  // Worked examples

  /** MRP 1000 with no discount: taxable 847.46, GST 152.54, CGST = SGST = 76.27. */
  lemma ExampleThousand(data: InvoiceData)
    requires data.mrp == 1000.0 && data.discount == 0.0
    ensures CalculateAmounts(data) == CalculatedAmounts(847.46, 152.54, 1000.0, 76.27, 76.27)
  {
    CalculateInPaise(data, 100000);
  }

  /** A discount above the MRP is not rejected: MRP 100 and discount 150
      give a total of -50, and every other amount is negative too. */
  lemma ExampleDiscountAboveMrp(data: InvoiceData)
    requires data.mrp == 100.0 && data.discount == 150.0
    ensures CalculateAmounts(data) == CalculatedAmounts(-42.37, -7.63, -50.0, -3.82, -3.82)
  {
    assert DivRoundHalfAway(-500000, 118) == -4237;
    assert DivRoundHalfAway(-763, 2) == -382;
    assert CalculatePaise(-5000) == Paise(-4237, -763, -5000, -382, -382);
    assert Rupees(-4237) == -42.37 && Rupees(-763) == -7.63 && Rupees(-5000) == -50.0 && Rupees(-382) == -3.82;
    CalculateInPaise(data, -5000);
  }

  /** A GST of one paisa is split as one paisa each, not half a paisa each,
      whatever the price. */
  lemma OnePaisaGst(data: InvoiceData)
    requires CalculateAmounts(data).gstAmount == 0.01
    ensures CalculateAmounts(data).cgst == 0.01 && CalculateAmounts(data).sgst == 0.01
  {
  }

  /** A price of 6 paise gives taxable 0.05, GST 0.01 and CGST = SGST = 0.01. */
  lemma ExampleOddPaisa(data: InvoiceData)
    requires data.mrp - data.discount == 0.06
    ensures CalculateAmounts(data) == CalculatedAmounts(0.05, 0.01, 0.06, 0.01, 0.01)
  {
    CalculateInPaise(data, 6);
  }
}
