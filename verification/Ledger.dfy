/**
 The billing ledger of one tenant, as what each operation does to the invoice table.

 Every operation is a sequence of database commits and can stop between any two of them (a lost
 connection, an aggregation that raises, a killed process). A budget says how many more effects - commits,
 and the one mail - take place before the operation is cut short; an operation that is not cut has budget
 left over. Months are counted as in Calendar; the order of the table is the order of insertion.
 */
module Ledger {
  import opened Basics
  import opened Billing
  import Prices

  datatype Status = Draft | Finalized | Corrected

  /** An invoice row together with its line items, which are only ever replaced as a whole in one commit. */
  datatype Invoice = Invoice(month: int, status: Status, subtotal: int, tax: int, total: int,
                             lines: seq<Line>, notified: bool)

  type Rows = seq<Invoice>

  /** What the outside world answers for one month: the aggregated usage, the prices in force, the tax rate. */
  datatype Reading = Reading(usage: seq<UsageItem>, prices: map<string, int>, taxRate: int)

  datatype Money = Money(subtotal: int, tax: int, total: int)

  const PROVISIONABLE: string := "provisionable_devices"

  /** Usage aggregation always yields the same eleven items. */
  predicate Full(r: Reading) {
    |r.usage| == |Prices.ITEM_KEYS| && forall i :: 0 <= i < |r.usage| ==> r.usage[i].key == Prices.ITEM_KEYS[i]
  }

  // ----- Reading line items --------------------------------------------------------------------------

  function QuantityIn(lines: seq<Line>, key: string): int {
    if lines == [] then 0
    else
      var last := lines[|lines| - 1];
      QuantityIn(lines[..|lines| - 1], key) + if last.key == key then last.quantity else 0
  }

  function AmountIn(lines: seq<Line>, key: string): int {
    if lines == [] then 0
    else
      var last := lines[|lines| - 1];
      AmountIn(lines[..|lines| - 1], key) + if last.key == key then last.amount else 0
  }

  /** The quantity of the first line of an item, zero when it has none. */
  function FirstQuantity(lines: seq<Line>, key: string): int {
    if lines == [] then 0
    else if lines[0].key == key then lines[0].quantity
    else FirstQuantity(lines[1..], key)
  }

  /** Assigning a dictionary entry: an existing item keeps its place, a new one goes last. */
  function WithQuantity(usage: seq<UsageItem>, key: string, quantity: int): seq<UsageItem> {
    if usage == [] then [UsageItem(key, quantity)]
    else if usage[0].key == key then [UsageItem(key, quantity)] + usage[1..]
    else [usage[0]] + WithQuantity(usage[1..], key, quantity)
  }

  /** The bill for a past month: everything is aggregated again, except the provisionable devices. */
  function Quote(r: Reading, provisionable: int): Bill {
    InvoiceFor(WithQuantity(r.usage, PROVISIONABLE, provisionable), r.prices, r.taxRate)
  }

  // ----- Sums over the rows of a month ---------------------------------------------------------------

  function MonthMoney(rows: Rows, m: int): Money {
    if rows == [] then Money(0, 0, 0)
    else
      var sum, r := MonthMoney(rows[..|rows| - 1], m), rows[|rows| - 1];
      if r.month == m then Money(sum.subtotal + r.subtotal, sum.tax + r.tax, sum.total + r.total) else sum
  }

  function ItemQuantity(rows: Rows, m: int, key: string): int {
    if rows == [] then 0
    else
      var r := rows[|rows| - 1];
      ItemQuantity(rows[..|rows| - 1], m, key) + if r.month == m then QuantityIn(r.lines, key) else 0
  }

  function ItemAmount(rows: Rows, m: int, key: string): int {
    if rows == [] then 0
    else
      var r := rows[|rows| - 1];
      ItemAmount(rows[..|rows| - 1], m, key) + if r.month == m then AmountIn(r.lines, key) else 0
  }

  // ----- The daily batch -----------------------------------------------------------------------------

  /** A phase of an operation: the table it leaves, the budget left, and whether it ran to its end. */
  datatype Phase = Phase(rows: Rows, left: nat, done: bool)

  function Latest(rows: Rows): int
    requires rows != []
  {
    var last := rows[|rows| - 1].month;
    if |rows| == 1 then last
    else
      var before := Latest(rows[..|rows| - 1]);
      if before > last then before else last
  }

  lemma {:induction false} LatestIsMaximum(rows: Rows)
    requires rows != []
    ensures forall i :: 0 <= i < |rows| ==> rows[i].month <= Latest(rows)
    ensures exists i :: 0 <= i < |rows| && rows[i].month == Latest(rows)
  {
    var n := |rows| - 1;
    assert rows[n].month <= Latest(rows);
    if n > 0 {
      LatestIsMaximum(rows[..n]);
      var i :| 0 <= i < n && rows[..n][i].month == Latest(rows[..n]);
      assert rows[i].month == Latest(rows[..n]);
      forall k | 0 <= k < n ensures rows[k].month <= Latest(rows) { assert rows[k] == rows[..n][k]; }
    }
  }

  predicate HasMonth(rows: Rows, m: int) { exists i :: 0 <= i < |rows| && rows[i].month == m }

  function Priced(inv: Invoice, bill: Bill): Invoice {
    inv.(subtotal := bill.subtotal, tax := bill.tax, total := bill.total)
  }

  function Blank(m: int, status: Status): Invoice { Invoice(m, status, 0, 0, 0, [], false) }

  function BackfillFrom(rows: Rows, next: int, current: int, kept: int, read: int -> Reading, budget: nat): Phase
    decreases current - next
  {
    if next >= current then Phase(rows, budget, true)
    else if budget == 0 then Phase(rows, 0, false)
    else
      var bill := Quote(read(next), kept);
      var bare := Priced(Blank(next, Finalized), bill);
      if budget == 1 then Phase(rows + [bare], 0, false)
      else BackfillFrom(rows + [bare.(lines := bill.lines)], next + 1, current, kept, read, budget - 2)
  }

  /** `first()` of an unordered query: the database may pick any row of the latest month. */
  predicate LegalPick(rows: Rows, pick: nat) {
    rows == [] || (pick < |rows| && rows[pick].month == Latest(rows))
  }

  function Backfill(rows: Rows, current: int, pick: nat, read: int -> Reading, budget: nat): Phase
    requires LegalPick(rows, pick)
  {
    if rows == [] then Phase(rows, budget, true)
    else BackfillFrom(rows, Latest(rows) + 1, current, FirstQuantity(rows[pick].lines, PROVISIONABLE), read, budget)
  }

  predicate IsStale(inv: Invoice, current: int) { inv.status.Draft? && inv.month < current }

  function FinalizeFrom(rows: Rows, i: nat, current: int, read: int -> Reading, budget: nat): Phase
    requires i <= |rows|
    decreases |rows| - i
  {
    if i == |rows| then Phase(rows, budget, true)
    else if !IsStale(rows[i], current) then FinalizeFrom(rows, i + 1, current, read, budget)
    else if budget == 0 then Phase(rows, 0, false)
    else
      var bill := Quote(read(rows[i].month), FirstQuantity(rows[i].lines, PROVISIONABLE));
      var settled := Priced(rows[i], bill).(status := Finalized);
      if budget == 1 then Phase(rows[i := settled], 0, false)
      else FinalizeFrom(rows[i := settled.(lines := bill.lines)], i + 1, current, read, budget - 2)
  }

  function FindMonth(rows: Rows, m: int): (i: nat)
    ensures i <= |rows|
    ensures i < |rows| ==> rows[i].month == m
    ensures forall j :: 0 <= j < i ==> rows[j].month != m
  {
    if rows == [] || rows[0].month == m then 0 else 1 + FindMonth(rows[1..], m)
  }

  function OpenDraft(rows: Rows, current: int, budget: nat): Phase {
    if FindMonth(rows, current) < |rows| then Phase(rows, budget, true)
    else if budget == 0 then Phase(rows, 0, false)
    else Phase(rows + [Blank(current, Draft)], budget - 1, true)
  }

  /** The table, and the months for which a bill-shock mail went out, in order. */
  datatype State = State(rows: Rows, notices: seq<int>)

  datatype Outcome = Ok(total: int) | SkippedNotDraft | CutShort

  datatype Result = Result(state: State, outcome: Outcome)

  predicate ShockDue(inv: Invoice, threshold: Option<int>) {
    threshold.Some? && inv.total > threshold.value && !inv.notified
  }

  /** Bill shock: the mail goes out first, the mark is saved after it. */
  function Notify(s: State, i: nat, threshold: Option<int>, budget: nat): Result
    requires i < |s.rows|
  {
    var inv := s.rows[i];
    if !ShockDue(inv, threshold) then Result(s, Ok(inv.total))
    else if budget == 0 then Result(s, CutShort)
    else
      var mailed := s.(notices := s.notices + [inv.month]);
      if budget == 1 then Result(mailed, CutShort)
      else Result(mailed.(rows := s.rows[i := inv.(notified := true)]), Ok(inv.total))
  }

  /** The current month's draft is billed again from today's usage. */
  function Refresh(s: State, i: nat, reading: Reading, threshold: Option<int>, budget: nat): Result
    requires i < |s.rows|
  {
    if !s.rows[i].status.Draft? then Result(s, SkippedNotDraft)
    else if budget == 0 then Result(s, CutShort)
    else
      var bill := InvoiceFor(reading.usage, reading.prices, reading.taxRate);
      var priced := Priced(s.rows[i], bill);
      if budget == 1 then Result(s.(rows := s.rows[i := priced]), CutShort)
      else Notify(s.(rows := s.rows[i := priced.(lines := bill.lines)]), i, threshold, budget - 2)
  }

  function Batch(s: State, current: int, pick: nat, read: int -> Reading, threshold: Option<int>, budget: nat): Result
    requires LegalPick(s.rows, pick)
  {
    var a := Backfill(s.rows, current, pick, read, budget);
    if !a.done then Result(s.(rows := a.rows), CutShort)
    else
      var b := FinalizeFrom(a.rows, 0, current, read, a.left);
      if !b.done then Result(s.(rows := b.rows), CutShort)
      else
        var c := OpenDraft(b.rows, current, b.left);
        if !c.done then Result(s.(rows := c.rows), CutShort)
        else
          OpenDraftFinds(b.rows, current, b.left);
          Refresh(s.(rows := c.rows), FindMonth(c.rows, current), read(current), threshold, c.left)
  }

  lemma OpenDraftFinds(rows: Rows, current: int, budget: nat)
    ensures var c := OpenDraft(rows, current, budget); c.done ==> FindMonth(c.rows, current) < |c.rows|
  {
    var c := OpenDraft(rows, current, budget);
    if c.done && FindMonth(rows, current) == |rows| {
      assert c.rows[|rows|].month == current;
    }
  }

  // ----- Manual correction ---------------------------------------------------------------------------

  predicate HasFinalized(rows: Rows, m: int) {
    exists i :: 0 <= i < |rows| && rows[i].month == m && rows[i].status.Finalized?
  }

  datatype Verdict = NotFinalized | NoChange | Added | Interrupted

  datatype Correction = Correction(rows: Rows, verdict: Verdict)

  /** What the month would be billed at now, keeping the provisionable devices it already carries. */
  function FreshBill(rows: Rows, m: int, reading: Reading): Bill {
    Quote(reading, ItemQuantity(rows, m, PROVISIONABLE))
  }

  function DeltaLine(rows: Rows, m: int, line: Line): Line {
    Line(line.key, line.quantity - ItemQuantity(rows, m, line.key), line.unitPrice,
         line.amount - ItemAmount(rows, m, line.key))
  }

  function DeltaLines(rows: Rows, m: int, lines: seq<Line>): seq<Line> {
    seq(|lines|, i requires 0 <= i < |lines| => DeltaLine(rows, m, lines[i]))
  }

  function Correct(rows: Rows, m: int, reading: Reading, budget: nat): Correction {
    if !HasFinalized(rows, m) then Correction(rows, NotFinalized)
    else
      var running, bill := MonthMoney(rows, m), FreshBill(rows, m, reading);
      var bare := Invoice(m, Corrected, bill.subtotal - running.subtotal, bill.tax - running.tax,
                          bill.total - running.total, [], false);
      if bare.subtotal == 0 && bare.tax == 0 && bare.total == 0 then Correction(rows, NoChange)
      else if budget == 0 then Correction(rows, Interrupted)
      else if budget == 1 then Correction(rows + [bare], Interrupted)
      else Correction(rows + [bare.(lines := DeltaLines(rows, m, bill.lines))], Added)
  }
}
