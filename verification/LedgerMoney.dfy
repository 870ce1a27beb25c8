/** What the ledger's amounts and quantities keep: corrections reconcile, lines balance, devices are carried over. */
module LedgerMoney {
  import opened Basics
  import opened Billing
  import opened Ledger
  import Prices

  // ----- Corrections reconcile -----------------------------------------------------------------------

  function BillMoney(b: Bill): Money { Money(b.subtotal, b.tax, b.total) }

  lemma MoneyAppend(rows: Rows, r: Invoice, m: int)
    ensures var a, b := MonthMoney(rows, m), MonthMoney(rows + [r], m);
            b == if r.month == m then Money(a.subtotal + r.subtotal, a.tax + r.tax, a.total + r.total) else a
  {
    assert (rows + [r])[..|rows|] == rows;
  }

  lemma ItemAppend(rows: Rows, r: Invoice, m: int, key: string)
    ensures ItemQuantity(rows + [r], m, key)
         == ItemQuantity(rows, m, key) + if r.month == m then QuantityIn(r.lines, key) else 0
    ensures ItemAmount(rows + [r], m, key)
         == ItemAmount(rows, m, key) + if r.month == m then AmountIn(r.lines, key) else 0
  {
    assert (rows + [r])[..|rows|] == rows;
  }

  /**
   A correction on a finalized month that is not stopped before its first commit: the month's rows now sum
   to exactly the fresh bill - whether a row was added or none was needed, and even if the operation was cut
   before the lines of the new row.
   */
  lemma CorrectionReconciles(rows: Rows, m: int, reading: Reading, budget: nat)
    requires HasFinalized(rows, m) && budget > 0
    ensures MonthMoney(Correct(rows, m, reading, budget).rows, m) == BillMoney(FreshBill(rows, m, reading))
    ensures forall other :: other != m ==> MonthMoney(Correct(rows, m, reading, budget).rows, other) == MonthMoney(rows, other)
  {
    var c := Correct(rows, m, reading, budget);
    if c.rows != rows {
      var r := c.rows[|rows|];
      assert c.rows == rows + [r];
      MoneyAppend(rows, r, m);
      forall other | other != m ensures MonthMoney(c.rows, other) == MonthMoney(rows, other) {
        MoneyAppend(rows, r, other);
      }
    }
  }

  /** Usage, prices and tax unchanged: correcting again adds nothing. */
  lemma RepeatedCorrectionAddsNothing(rows: Rows, m: int, reading: Reading, first: nat, second: nat)
    requires HasFinalized(rows, m) && KeyedRows(rows) && Full(reading) && first > 0
    ensures var c := Correct(rows, m, reading, first);
            Correct(c.rows, m, reading, second) == Correction(c.rows, NoChange)
  {
    var c := Correct(rows, m, reading, first);
    CorrectionReconciles(rows, m, reading, first);
    CorrectionKeepsDevices(rows, m, reading, first, m);
    var i :| 0 <= i < |rows| && rows[i].month == m && rows[i].status.Finalized?;
    assert c.rows[i] == rows[i];
  }

  datatype Recount = Recount(reading: Reading, budget: nat)

  function CorrectAll(rows: Rows, m: int, calls: seq<Recount>): Rows {
    if calls == [] then rows
    else Correct(CorrectAll(rows, m, calls[..|calls| - 1]), m, calls[|calls| - 1].reading, calls[|calls| - 1].budget).rows
  }

  lemma {:induction false} CorrectAllKeeps(rows: Rows, m: int, calls: seq<Recount>)
    requires HasFinalized(rows, m) && KeyedRows(rows)
    requires forall i :: 0 <= i < |calls| ==> Full(calls[i].reading)
    ensures HasFinalized(CorrectAll(rows, m, calls), m) && KeyedRows(CorrectAll(rows, m, calls))
    ensures ItemQuantity(CorrectAll(rows, m, calls), m, PROVISIONABLE) == ItemQuantity(rows, m, PROVISIONABLE)
  {
    if calls != [] {
      var n := |calls| - 1;
      CorrectAllKeeps(rows, m, calls[..n]);
      var before := CorrectAll(rows, m, calls[..n]);
      CorrectionKeepsDevices(before, m, calls[n].reading, calls[n].budget, m);
      var after := CorrectAll(rows, m, calls);
      var i :| 0 <= i < |before| && before[i].month == m && before[i].status.Finalized?;
      assert after[i] == before[i];
    }
  }

  /**
   However many corrections a month has seen, cut short or not, the last one that got to its first commit
   decides: the month sums to what that call would bill - and the bill is computed with the provisionable
   devices the month had before the first of them.
   */
  lemma LastCorrectionDecides(rows: Rows, m: int, calls: seq<Recount>)
    requires HasFinalized(rows, m) && KeyedRows(rows)
    requires forall i :: 0 <= i < |calls| ==> Full(calls[i].reading)
    requires calls != [] && calls[|calls| - 1].budget > 0
    ensures MonthMoney(CorrectAll(rows, m, calls), m)
         == BillMoney(FreshBill(rows, m, calls[|calls| - 1].reading))
  {
    var n := |calls| - 1;
    CorrectAllKeeps(rows, m, calls[..n]);
    CorrectionReconciles(CorrectAll(rows, m, calls[..n]), m, calls[n].reading, calls[n].budget);
  }

  // ----- Line items ----------------------------------------------------------------------------------

  /** An invoice has no lines yet, or one line for each of the eleven items, in their order. */
  predicate Keyed(lines: seq<Line>) {
    lines == [] || (|lines| == |Prices.ITEM_KEYS| && forall i :: 0 <= i < |lines| ==> lines[i].key == Prices.ITEM_KEYS[i])
  }

  ghost predicate KeyedRows(rows: Rows) { forall i :: 0 <= i < |rows| ==> Keyed(rows[i].lines) }

  lemma KeysDiffer(i: nat, j: nat)
    requires i < j < |Prices.ITEM_KEYS|
    ensures Prices.ITEM_KEYS[i] != Prices.ITEM_KEYS[j]
  {
    var ks := Prices.ITEM_KEYS;
    assert ks[2][3] != ks[4][3];
    assert ks[3][2] != ks[10][2];
    assert ks[5][0] != ks[7][0];
    assert |ks[0]| == 8 && |ks[1]| == 11 && |ks[2]| == 20 && |ks[3]| == 19 && |ks[4]| == 20 && |ks[5]| == 12;
    assert |ks[6]| == 21 && |ks[7]| == 12 && |ks[8]| == 15 && |ks[9]| == 23 && |ks[10]| == 19;
  }

  lemma {:induction false} KeyedPrefix(lines: seq<Line>, n: nat, k: nat)
    requires n <= |lines| <= |Prices.ITEM_KEYS| && k < |Prices.ITEM_KEYS|
    requires forall i :: 0 <= i < |lines| ==> lines[i].key == Prices.ITEM_KEYS[i]
    ensures QuantityIn(lines[..n], Prices.ITEM_KEYS[k]) == if k < n then lines[k].quantity else 0
    ensures AmountIn(lines[..n], Prices.ITEM_KEYS[k]) == if k < n then lines[k].amount else 0
  {
    if n > 0 {
      KeyedPrefix(lines, n - 1, k);
      assert lines[..n][..n - 1] == lines[..n - 1];
      if k < n - 1 { KeysDiffer(k, n - 1); }
      if n - 1 < k { KeysDiffer(n - 1, k); }
    }
  }

  /** With keyed lines, the sums over an item are the values of its one line. */
  lemma KeyedLookup(lines: seq<Line>, k: nat)
    requires Keyed(lines) && k < |Prices.ITEM_KEYS|
    ensures QuantityIn(lines, Prices.ITEM_KEYS[k]) == if lines == [] then 0 else lines[k].quantity
    ensures AmountIn(lines, Prices.ITEM_KEYS[k]) == if lines == [] then 0 else lines[k].amount
  {
    if lines != [] {
      KeyedPrefix(lines, |lines|, k);
      assert lines[..|lines|] == lines;
    }
  }

  lemma {:induction false} FirstQuantityAt(lines: seq<Line>, k: nat, key: string)
    requires k < |lines| && lines[k].key == key
    requires forall i :: 0 <= i < k ==> lines[i].key != key
    ensures FirstQuantity(lines, key) == lines[k].quantity
  {
    if k > 0 { FirstQuantityAt(lines[1..], k - 1, key); }
  }

  const DEVICES: nat := 6

  lemma DevicesKey()
    ensures Prices.ITEM_KEYS[DEVICES] == PROVISIONABLE
  {
  }

  lemma FirstIsOnly(lines: seq<Line>)
    requires Keyed(lines)
    ensures FirstQuantity(lines, PROVISIONABLE) == QuantityIn(lines, PROVISIONABLE)
  {
    DevicesKey();
    KeyedLookup(lines, DEVICES);
    if lines != [] {
      forall i | 0 <= i < DEVICES ensures lines[i].key != PROVISIONABLE { KeysDiffer(i, DEVICES); }
      FirstQuantityAt(lines, DEVICES, PROVISIONABLE);
    }
  }

  lemma {:induction false} WithQuantityAt(usage: seq<UsageItem>, k: nat, key: string, q: int)
    requires k < |usage| && usage[k].key == key
    requires forall i :: 0 <= i < k ==> usage[i].key != key
    ensures WithQuantity(usage, key, q) == usage[k := UsageItem(key, q)]
  {
    if k > 0 { WithQuantityAt(usage[1..], k - 1, key, q); }
  }

  /** A quote has exactly the eleven items, with the given number of provisionable devices and the usage read for the rest. */
  lemma QuoteShape(r: Reading, q: int)
    requires Full(r)
    ensures var b := Quote(r, q);
            && |b.lines| == |Prices.ITEM_KEYS| && Keyed(b.lines)
            && b.lines[DEVICES].quantity == q
            && forall i :: 0 <= i < |b.lines| && i != DEVICES ==> b.lines[i].quantity == r.usage[i].quantity
  {
    DevicesKey();
    forall i | 0 <= i < DEVICES ensures r.usage[i].key != PROVISIONABLE { KeysDiffer(i, DEVICES); }
    WithQuantityAt(r.usage, DEVICES, PROVISIONABLE, q);
  }

  lemma DeltaLinesKeyed(rows: Rows, m: int, lines: seq<Line>)
    requires Keyed(lines)
    ensures Keyed(DeltaLines(rows, m, lines))
  {
  }

  /** The added row, when a correction adds one: keyed lines or, if cut, none. */
  lemma CorrectShape(rows: Rows, m: int, reading: Reading, budget: nat)
    requires Full(reading)
    ensures var c := Correct(rows, m, reading, budget);
            c.rows == rows || (|c.rows| == |rows| + 1 && c.rows == rows + [c.rows[|rows|]]
                               && c.rows[|rows|].month == m && c.rows[|rows|].status.Corrected?
                               && Keyed(c.rows[|rows|].lines) && !c.rows[|rows|].notified
                               && (c.verdict.Added? ==> c.rows[|rows|].lines == DeltaLines(rows, m, FreshBill(rows, m, reading).lines)
                                                        && c.rows[|rows|].lines != [])
                               && (!c.verdict.Added? ==> c.rows[|rows|].lines == []))
  {
    QuoteShape(reading, ItemQuantity(rows, m, PROVISIONABLE));
    DeltaLinesKeyed(rows, m, FreshBill(rows, m, reading).lines);
  }

  /** A correction, cut or not, changes no month's number of provisionable devices. */
  lemma CorrectionKeepsDevices(rows: Rows, m: int, reading: Reading, budget: nat, month: int)
    requires KeyedRows(rows) && Full(reading)
    ensures KeyedRows(Correct(rows, m, reading, budget).rows)
    ensures ItemQuantity(Correct(rows, m, reading, budget).rows, month, PROVISIONABLE) == ItemQuantity(rows, month, PROVISIONABLE)
  {
    var c := Correct(rows, m, reading, budget);
    CorrectShape(rows, m, reading, budget);
    if c.rows != rows {
      var r := c.rows[|rows|];
      ItemAppend(rows, r, month, PROVISIONABLE);
      QuoteShape(reading, ItemQuantity(rows, m, PROVISIONABLE));
      DevicesKey();
      KeyedLookup(r.lines, DEVICES);
    }
  }

  /** When a correction adds a row, every item's quantity and amount over the month equal the fresh bill's. */
  lemma AddedCorrectionMatchesItems(rows: Rows, m: int, reading: Reading, budget: nat, k: nat)
    requires Full(reading) && k < |Prices.ITEM_KEYS|
    requires Correct(rows, m, reading, budget).verdict.Added?
    ensures var after, bill := Correct(rows, m, reading, budget).rows, FreshBill(rows, m, reading);
            && |bill.lines| == |Prices.ITEM_KEYS| && bill.lines[k].key == Prices.ITEM_KEYS[k]
            && ItemQuantity(after, m, Prices.ITEM_KEYS[k]) == bill.lines[k].quantity
            && ItemAmount(after, m, Prices.ITEM_KEYS[k]) == bill.lines[k].amount
  {
    QuoteShape(reading, ItemQuantity(rows, m, PROVISIONABLE));
    CorrectShape(rows, m, reading, budget);
    var r := Correct(rows, m, reading, budget).rows[|rows|];
    ItemAppend(rows, r, m, Prices.ITEM_KEYS[k]);
    KeyedLookup(r.lines, k);
  }

  /**
   Exactly when a completed correction leaves an item's quantity at the fresh bill's: when the month's money
   differed from the bill's before the call, or the quantity was right already. Only money decides whether a row
   is added, so a wrong quantity that costs nothing stays wrong.
   */
  lemma QuantityIsCorrectedIff(rows: Rows, m: int, reading: Reading, budget: nat, k: nat)
    requires HasFinalized(rows, m) && Full(reading) && k < |Prices.ITEM_KEYS|
    requires budget >= 2 || BillMoney(FreshBill(rows, m, reading)) == MonthMoney(rows, m)
    ensures var c, bill, key := Correct(rows, m, reading, budget), FreshBill(rows, m, reading), Prices.ITEM_KEYS[k];
            && |bill.lines| == |Prices.ITEM_KEYS|
            && (ItemQuantity(c.rows, m, key) == bill.lines[k].quantity
                <==> (BillMoney(bill) != MonthMoney(rows, m) || ItemQuantity(rows, m, key) == bill.lines[k].quantity))
  {
    QuoteShape(reading, ItemQuantity(rows, m, PROVISIONABLE));
    if Correct(rows, m, reading, budget).verdict.Added? {
      AddedCorrectionMatchesItems(rows, m, reading, budget, k);
    }
  }

  // ----- Lines balance -------------------------------------------------------------------------------

  predicate Balanced(r: Invoice) { Keyed(r.lines) && SumAmounts(r.lines) == r.subtotal }

  ghost predicate BalancedRows(rows: Rows) { forall i :: 0 <= i < |rows| ==> Balanced(rows[i]) }

  /** The amounts of the first n items, summed over a month. */
  function ItemsTotal(rows: Rows, m: int, n: nat): int
    requires n <= |Prices.ITEM_KEYS|
  {
    if n == 0 then 0 else ItemsTotal(rows, m, n - 1) + ItemAmount(rows, m, Prices.ITEM_KEYS[n - 1])
  }

  lemma {:induction false} LinesTotal(lines: seq<Line>, n: nat)
    requires Keyed(lines) && n <= |lines|
    ensures SumAmounts(lines[..n]) == if n == 0 then 0 else SumAmounts(lines[..n - 1]) + AmountIn(lines, Prices.ITEM_KEYS[n - 1])
  {
    if n > 0 {
      KeyedLookup(lines, n - 1);
      assert lines[..n][..n - 1] == lines[..n - 1];
    }
  }

  lemma {:induction false} ItemsTotalAppend(rows: Rows, r: Invoice, m: int, n: nat)
    requires Keyed(r.lines) && n <= |Prices.ITEM_KEYS|
    ensures ItemsTotal(rows + [r], m, n)
         == ItemsTotal(rows, m, n) + if r.month == m && r.lines != [] then SumAmounts(r.lines[..n]) else 0
  {
    if n > 0 {
      ItemsTotalAppend(rows, r, m, n - 1);
      ItemAppend(rows, r, m, Prices.ITEM_KEYS[n - 1]);
      if r.lines != [] { LinesTotal(r.lines, n); }
    }
  }

  lemma {:induction false} ItemsTotalZero(m: int, n: nat)
    requires n <= |Prices.ITEM_KEYS|
    ensures ItemsTotal([], m, n) == 0
  {
    if n > 0 { ItemsTotalZero(m, n - 1); }
  }

  /** Summing by item or by row is the same: over balanced rows both give the month's subtotal. */
  lemma {:induction false} ItemsMakeSubtotal(rows: Rows, m: int)
    requires BalancedRows(rows)
    ensures ItemsTotal(rows, m, |Prices.ITEM_KEYS|) == MonthMoney(rows, m).subtotal
  {
    if rows == [] {
      ItemsTotalZero(m, |Prices.ITEM_KEYS|);
    } else {
      var n, r := |rows| - 1, rows[|rows| - 1];
      ItemsMakeSubtotal(rows[..n], m);
      assert rows == rows[..n] + [r];
      ItemsTotalAppend(rows[..n], r, m, |Prices.ITEM_KEYS|);
      assert r.lines[..|r.lines|] == r.lines;
    }
  }

  lemma {:induction false} DeltaTotal(rows: Rows, m: int, lines: seq<Line>, n: nat)
    requires Keyed(lines) && n <= |lines|
    ensures SumAmounts(DeltaLines(rows, m, lines)[..n]) == SumAmounts(lines[..n]) - ItemsTotal(rows, m, n)
  {
    if n > 0 {
      DeltaTotal(rows, m, lines, n - 1);
      assert DeltaLines(rows, m, lines)[..n][..n - 1] == DeltaLines(rows, m, lines)[..n - 1];
      assert lines[..n][..n - 1] == lines[..n - 1];
    }
  }

  /** The month's items add up to its subtotal, all its rows taken together. */
  ghost predicate Whole(rows: Rows, m: int) {
    ItemsTotal(rows, m, |Prices.ITEM_KEYS|) == MonthMoney(rows, m).subtotal
  }

  /**
   The row a correction adds is balanced exactly when the month's items agreed with its subtotal before: a correction
   that was cut between its two commits left a subtotal without lines, and the next delta row makes up for it.
   */
  lemma AddedRowBalancesIff(rows: Rows, m: int, reading: Reading, budget: nat)
    requires Full(reading) && Correct(rows, m, reading, budget).verdict.Added?
    ensures var c := Correct(rows, m, reading, budget);
            |c.rows| == |rows| + 1 && (Balanced(c.rows[|rows|]) <==> Whole(rows, m))
  {
    CorrectShape(rows, m, reading, budget);
    QuoteShape(reading, ItemQuantity(rows, m, PROVISIONABLE));
    var bill := FreshBill(rows, m, reading);
    DeltaTotal(rows, m, bill.lines, |bill.lines|);
    var d := DeltaLines(rows, m, bill.lines);
    assert d[..|bill.lines|] == d && bill.lines[..|bill.lines|] == bill.lines;
  }

  /** And whatever was cut before, the month's items then add up to its subtotal again. */
  lemma AddedCorrectionMakesWhole(rows: Rows, m: int, reading: Reading, budget: nat)
    requires Full(reading) && Correct(rows, m, reading, budget).verdict.Added?
    ensures Whole(Correct(rows, m, reading, budget).rows, m)
  {
    CorrectShape(rows, m, reading, budget);
    QuoteShape(reading, ItemQuantity(rows, m, PROVISIONABLE));
    var c, bill := Correct(rows, m, reading, budget), FreshBill(rows, m, reading);
    CorrectionReconciles(rows, m, reading, budget);
    ItemsTotalAppend(rows, c.rows[|rows|], m, |Prices.ITEM_KEYS|);
    DeltaTotal(rows, m, bill.lines, |bill.lines|);
    assert bill.lines[..|bill.lines|] == bill.lines;
  }

  /** A finished correction leaves every row balanced, the delta row included: its lines add up to its own subtotal. */
  lemma CorrectionBalances(rows: Rows, m: int, reading: Reading, budget: nat)
    requires BalancedRows(rows) && Full(reading)
    requires !Correct(rows, m, reading, budget).verdict.Interrupted?
    ensures BalancedRows(Correct(rows, m, reading, budget).rows)
  {
    CorrectShape(rows, m, reading, budget);
    if Correct(rows, m, reading, budget).verdict.Added? {
      ItemsMakeSubtotal(rows, m);
      AddedRowBalancesIff(rows, m, reading, budget);
    }
  }
}
