/**
 Invoice arithmetic: line amounts, subtotal, tax and total.

 Prices and tax rates are fixed-point numbers with four decimals, so both are held as integers counting
 ten-thousandths. Amounts are whole yen.
 */
module Billing {
  const SCALE: int := 10000

  datatype UsageItem = UsageItem(key: string, quantity: int)

  datatype Line = Line(key: string, quantity: int, unitPrice: int, amount: int)

  datatype Bill = Bill(lines: seq<Line>, subtotal: int, tax: int, total: int)

  /** Rounding toward zero, for operands of either sign. */
  function RoundDown(n: int): (yen: int)
    ensures n >= 0 ==> yen * 10000 <= n < (yen + 1) * 10000
    ensures n <= 0 ==> (yen - 1) * 10000 < n <= yen * 10000
  {
    if n >= 0 then n / SCALE else -((-n) / SCALE)
  }

  function LineAmount(quantity: int, unitPrice: int): int { RoundDown(quantity * unitPrice) }

  function PriceOf(prices: map<string, int>, key: string): int {
    if key in prices then prices[key] else 0
  }

  function LineFor(item: UsageItem, prices: map<string, int>): Line {
    var price := PriceOf(prices, item.key);
    Line(item.key, item.quantity, price, LineAmount(item.quantity, price))
  }

  function LinesFor(usage: seq<UsageItem>, prices: map<string, int>): seq<Line> {
    seq(|usage|, i requires 0 <= i < |usage| => LineFor(usage[i], prices))
  }

  function SumAmounts(lines: seq<Line>): int {
    if lines == [] then 0 else SumAmounts(lines[..|lines| - 1]) + lines[|lines| - 1].amount
  }

  /** What an invoice for this usage must say; CalculateInvoice is the loop that computes it. */
  function InvoiceFor(usage: seq<UsageItem>, prices: map<string, int>, taxRate: int): Bill {
    var lines := LinesFor(usage, prices);
    var subtotal := SumAmounts(lines);
    var tax := RoundDown(subtotal * taxRate);
    Bill(lines, subtotal, tax, subtotal + tax)
  }

  method CalculateInvoice(usage: seq<UsageItem>, prices: map<string, int>, taxRate: int) returns (bill: Bill)
    ensures bill == InvoiceFor(usage, prices, taxRate)
  {
    var lines := [];
    var subtotal := 0;
    for i := 0 to |usage|
      invariant lines == LinesFor(usage, prices)[..i]
      invariant subtotal == SumAmounts(lines)
    {
      var unitPrice := if usage[i].key in prices then prices[usage[i].key] else 0;
      var amount := LineAmount(usage[i].quantity, unitPrice);
      var line := Line(usage[i].key, usage[i].quantity, unitPrice, amount);
      assert (lines + [line])[..|lines|] == lines;
      lines := lines + [line];
      subtotal := subtotal + amount;
    }
    assert LinesFor(usage, prices)[..|usage|] == LinesFor(usage, prices);
    var tax := RoundDown(subtotal * taxRate);
    bill := Bill(lines, subtotal, tax, subtotal + tax);
  }

  // ----- What the invoice says -----------------------------------------------------------------------

  lemma {:induction false} SumsAdd(a: seq<Line>, b: seq<Line>)
    ensures SumAmounts(a + b) == SumAmounts(a) + SumAmounts(b)
    ensures |b| == 1 ==> SumAmounts(b) == b[0].amount
    decreases |b|
  {
    if b == [] {
      assert a + b == a;
    } else {
      assert (a + b)[..|a + b| - 1] == a + b[..|b| - 1];
      SumsAdd(a, b[..|b| - 1]);
    }
  }

  /** One line an item, in order, with its unit price - none means free - and its amount in whole yen; tax on their sum. */
  lemma InvoiceSays(usage: seq<UsageItem>, prices: map<string, int>, taxRate: int)
    ensures var c := InvoiceFor(usage, prices, taxRate);
            && |c.lines| == |usage|
            && (forall k :: 0 <= k < |usage| ==>
                  && c.lines[k].key == usage[k].key && c.lines[k].quantity == usage[k].quantity
                  && c.lines[k].unitPrice == (if usage[k].key in prices then prices[usage[k].key] else 0)
                  && c.lines[k].amount == RoundDown(c.lines[k].quantity * c.lines[k].unitPrice))
            && (forall k :: 0 <= k < |usage| ==> SumAmounts(c.lines[..k + 1]) == SumAmounts(c.lines[..k]) + c.lines[k].amount)
            && c.subtotal == SumAmounts(c.lines[..|usage|]) && c.tax == RoundDown(c.subtotal * taxRate) && c.total == c.subtotal + c.tax
  {
    var lines := InvoiceFor(usage, prices, taxRate).lines;
    assert lines[..|usage|] == lines;
    forall k | 0 <= k < |usage| ensures SumAmounts(lines[..k + 1]) == SumAmounts(lines[..k]) + lines[k].amount {
      assert lines[..k + 1] == lines[..k] + [lines[k]];
      SumsAdd(lines[..k], [lines[k]]);
    }
  }

  // ----- How far rounding can go ---------------------------------------------------------------------

  /** The unrounded price of the usage, in ten-thousandths of a yen. */
  function ExactSum(usage: seq<UsageItem>, prices: map<string, int>): int {
    if usage == [] then 0
    else
      var last := usage[|usage| - 1];
      ExactSum(usage[..|usage| - 1], prices) + last.quantity * PriceOf(prices, last.key)
  }

  ghost predicate NonNegative(usage: seq<UsageItem>, prices: map<string, int>) {
    && (forall i :: 0 <= i < |usage| ==> usage[i].quantity >= 0)
    && (forall k :: k in prices ==> prices[k] >= 0)
  }

  lemma {:induction false} SubtotalError(usage: seq<UsageItem>, prices: map<string, int>)
    requires NonNegative(usage, prices)
    ensures 0 <= SumAmounts(LinesFor(usage, prices))
    ensures 0 <= ExactSum(usage, prices) - SCALE * SumAmounts(LinesFor(usage, prices)) <= |usage| * (SCALE - 1)
  {
    if usage == [] {
    } else {
      var init, last := usage[..|usage| - 1], usage[|usage| - 1];
      SubtotalError(init, prices);
      assert LinesFor(usage, prices)[..|usage| - 1] == LinesFor(init, prices);
      var n := last.quantity * PriceOf(prices, last.key);
      assert n >= 0;
      assert LinesFor(usage, prices)[|usage| - 1].amount == RoundDown(n);
    }
  }

  /**
   The bounds on what rounding costs, for n items and a tax rate between 0 and 1. All three compare exact
   integers: the first difference is in ten-thousandths of a yen, the last in hundred-millionths.
   */
  lemma RoundingBounds(usage: seq<UsageItem>, prices: map<string, int>, taxRate: int)
    requires NonNegative(usage, prices) && 0 <= taxRate <= SCALE
    ensures var c, exact, n := InvoiceFor(usage, prices, taxRate), ExactSum(usage, prices), |usage|;
            && 0 <= exact - SCALE * c.subtotal <= n * (SCALE - 1)
            && 0 <= c.tax <= c.subtotal
            && 0 <= exact * (SCALE + taxRate) - SCALE * SCALE * c.total
            && exact * (SCALE + taxRate) - SCALE * SCALE * c.total < SCALE * n * (SCALE + taxRate) + SCALE * SCALE
  {
    SubtotalError(usage, prices);
    var c, exact, n := InvoiceFor(usage, prices, taxRate), ExactSum(usage, prices), |usage|;
    var s, e := c.subtotal, exact - SCALE * c.subtotal;
    var t := s * taxRate - SCALE * c.tax;
    Scaling(s, taxRate, SCALE);
    assert 0 <= s * taxRate;
    assert 0 <= t < SCALE;
    assert c.tax <= s;
    var f := SCALE + taxRate;
    assert exact * f - SCALE * SCALE * c.total == e * f + SCALE * t by {
      assert exact * f == (e + SCALE * s) * f;
      Distribute(e, SCALE * s, f);
      assert SCALE * s * f == SCALE * SCALE * s + SCALE * (s * taxRate) by { Distribute3(s, taxRate); }
    }
    assert 0 <= e * f <= SCALE * n * f by { Monotone(e, SCALE * n, f); }
  }

  lemma Scaling(x: int, low: int, high: int)
    requires 0 <= x && 0 <= low <= high
    ensures 0 <= x * low <= x * high
  {
    assert x * high - x * low == x * (high - low);
  }

  lemma Monotone(x: int, y: int, f: int)
    requires 0 <= x <= y && 0 <= f
    ensures 0 <= x * f <= y * f
  {
    assert y * f - x * f == (y - x) * f;
  }

  lemma Distribute(x: int, y: int, f: int)
    ensures (x + y) * f == x * f + y * f
  {
  }

  lemma Distribute3(s: int, r: int)
    ensures SCALE * s * (SCALE + r) == SCALE * SCALE * s + SCALE * (s * r)
  {
  }
}
