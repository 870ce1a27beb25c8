/** The ledger as the service runs it: methods that commit to the invoice table row by row. */
module LedgerStore {
  import opened Basics
  import opened Billing
  import opened Ledger
  import Calendar
  import InvoiceDetail
  import Prices

  datatype Summary = Summary(month: int, draft: bool, money: Money, corrections: nat)

  datatype ItemTotal = ItemTotal(quantity: int, amount: int)

  datatype Detail = Detail(draft: bool, money: Money, corrections: seq<Money>, lines: seq<Line>)

  function TotalOf(items: map<string, ItemTotal>, key: string): ItemTotal {
    if key in items then items[key] else ItemTotal(0, 0)
  }

  /** Accumulating one row's lines into the running totals per item. */
  method AddLines(items: map<string, ItemTotal>, lines: seq<Line>) returns (sum: map<string, ItemTotal>)
    ensures forall key :: TotalOf(sum, key)
                       == ItemTotal(TotalOf(items, key).quantity + QuantityIn(lines, key), TotalOf(items, key).amount + AmountIn(lines, key))
    ensures forall key :: key in sum <==> key in items || exists i :: 0 <= i < |lines| && lines[i].key == key
  {
    sum := items;
    for i := 0 to |lines|
      invariant forall key :: TotalOf(sum, key)
                           == ItemTotal(TotalOf(items, key).quantity + QuantityIn(lines[..i], key), TotalOf(items, key).amount + AmountIn(lines[..i], key))
      invariant forall key :: key in sum <==> key in items || exists k :: 0 <= k < i && lines[k].key == key
    {
      assert lines[..i + 1][..i] == lines[..i];
      var acc := TotalOf(sum, lines[i].key);
      sum := sum[lines[i].key := ItemTotal(acc.quantity + lines[i].quantity, acc.amount + lines[i].amount)];
    }
    assert lines[..|lines|] == lines;
  }

  class Store {
    var rows: Rows
    var notices: seq<int>

    ghost function Contents(): State
      reads this
    {
      State(rows, notices)
    }

    constructor ()
      ensures Contents() == State([], [])
    {
      rows, notices := [], [];
    }

    /** Adds a finalized invoice for each month between the latest one on record and the current month. */
    method BackfillMissingMonths(current: int, pick: nat, read: int -> Reading, budget: nat) returns (left: nat, done: bool)
      requires LegalPick(rows, pick) && Calendar.InCalendar(current)
      requires forall i :: 0 <= i < |rows| ==> Calendar.InCalendar(rows[i].month)
      modifies this
      ensures Phase(rows, left, done) == Backfill(old(rows), current, pick, read, budget)
      ensures notices == old(notices)
    {
      hide BackfillFrom;
      hide FirstQuantity;
      if rows == [] { return budget, true; }
      var latest, kept := Latest(rows), FirstQuantity(rows[pick].lines, PROVISIONABLE);
      LatestIsMaximum(rows);
      BackfillUnfolds(rows, latest + 1, current, kept, read, budget);
      var missing := MissingMonths(latest, current);
      if missing == [] { return budget, true; }
      left, done := AddFinalized(latest, missing, current, kept, read, budget);
    }

    method AddFinalized(ghost latest: int, missing: seq<int>, ghost current: int, kept: int, read: int -> Reading, budget: nat)
      returns (left: nat, done: bool)
      requires |missing| == if latest + 1 < current then current - latest - 1 else 0
      requires forall i :: 0 <= i < |missing| ==> missing[i] == latest + 1 + i
      modifies this
      ensures Phase(rows, left, done) == BackfillFrom(old(rows), latest + 1, current, kept, read, budget)
      ensures notices == old(notices)
    {
      hide BackfillFrom;
      hide Quote;
      left := budget;
      var k := 0;
      while k < |missing|
        invariant 0 <= k <= |missing| && notices == old(notices)
        invariant BackfillFrom(rows, latest + 1 + k, current, kept, read, left)
               == BackfillFrom(old(rows), latest + 1, current, kept, read, budget)
      {
        BackfillUnfolds(rows, missing[k], current, kept, read, left);
        var reading := read(missing[k]);
        var bill := CalculateInvoice(WithQuantity(reading.usage, PROVISIONABLE, kept), reading.prices, reading.taxRate);
        QuoteIs(reading, kept);
        if left == 0 { return 0, false; }
        ghost var before := rows;
        rows := rows + [Priced(Blank(missing[k], Finalized), bill)];
        left := left - 1;
        if left == 0 { return 0, false; }
        rows := ReplaceLineItems(rows, |rows| - 1, bill.lines);
        assert rows == before + [Priced(Blank(missing[k], Finalized), bill).(lines := bill.lines)];
        left := left - 1;
        k := k + 1;
      }
      BackfillUnfolds(rows, latest + 1 + k, current, kept, read, left);
      done := true;
    }

    /** Bills every draft of an earlier month one last time and makes it final. */
    method FinalizeStaleDrafts(current: int, read: int -> Reading, budget: nat) returns (left: nat, done: bool)
      modifies this
      ensures Phase(rows, left, done) == FinalizeFrom(old(rows), 0, current, read, budget)
      ensures notices == old(notices)
    {
      left := budget;
      var i := 0;
      while i < |rows|
        invariant 0 <= i <= |rows| && notices == old(notices)
        invariant FinalizeFrom(rows, i, current, read, left) == FinalizeFrom(old(rows), 0, current, read, budget)
        decreases |rows| - i
      {
        if IsStale(rows[i], current) {
          var kept := FirstQuantity(rows[i].lines, PROVISIONABLE);
          var reading := read(rows[i].month);
          var bill := CalculateInvoice(WithQuantity(reading.usage, PROVISIONABLE, kept), reading.prices, reading.taxRate);
          if left == 0 { return 0, false; }
          ghost var before := rows;
          rows := rows[i := Priced(rows[i], bill).(status := Finalized)];
          left := left - 1;
          if left == 0 { return 0, false; }
          rows := ReplaceLineItems(rows, i, bill.lines);
          assert rows == before[i := Priced(before[i], bill).(status := Finalized, lines := bill.lines)];
          left := left - 1;
        }
        i := i + 1;
      }
      done := true;
    }

    /** Deletes the lines of an invoice and inserts the new ones, in one commit. */
    static function ReplaceLineItems(rows: Rows, i: nat, lines: seq<Line>): Rows
      requires i < |rows|
    {
      rows[i := rows[i].(lines := lines)]
    }

    method GetOrCreateDraftInvoice(current: int, budget: nat) returns (i: nat, left: nat, done: bool)
      modifies this
      ensures Phase(rows, left, done) == OpenDraft(old(rows), current, budget)
      ensures done ==> i == FindMonth(rows, current) < |rows|
      ensures notices == old(notices)
    {
      left := budget;
      i := FindMonth(rows, current);
      if i == |rows| {
        if left == 0 { return i, 0, false; }
        rows := rows + [Blank(current, Draft)];
        left := left - 1;
        OpenDraftFinds(old(rows), current, budget);
        i := FindMonth(rows, current);
      }
      done := true;
    }

    method CheckAndNotifyBillShock(i: nat, threshold: Option<int>, budget: nat) returns (done: bool)
      requires i < |rows|
      modifies this
      ensures Result(Contents(), if done then Ok(old(rows)[i].total) else CutShort) == Notify(old(Contents()), i, threshold, budget)
    {
      if threshold.None? { return true; }
      if rows[i].total <= threshold.value { return true; }
      if rows[i].notified { return true; }
      if budget == 0 { return false; }
      notices := notices + [rows[i].month];
      if budget == 1 { return false; }
      rows := rows[i := rows[i].(notified := true)];
      done := true;
    }

    /** One tenant's share of the daily batch. */
    method RunMonthlyBillingBatch(current: int, pick: nat, read: int -> Reading, threshold: Option<int>, budget: nat)
      returns (outcome: Outcome)
      requires LegalPick(rows, pick) && Calendar.InCalendar(current)
      requires forall i :: 0 <= i < |rows| ==> Calendar.InCalendar(rows[i].month)
      modifies this
      ensures Result(Contents(), outcome) == Batch(old(Contents()), current, pick, read, threshold, budget)
    {
      hide Backfill;
      hide FinalizeFrom;
      hide OpenDraft;
      hide FindMonth;
      hide InvoiceFor;
      var left, done := BackfillMissingMonths(current, pick, read, budget);
      if !done { return CutShort; }
      left, done := FinalizeStaleDrafts(current, read, left);
      if !done { return CutShort; }
      var i: nat;
      i, left, done := GetOrCreateDraftInvoice(current, left);
      if !done { return CutShort; }
      if !rows[i].status.Draft? { return SkippedNotDraft; }
      var reading := read(current);
      var bill := CalculateInvoice(reading.usage, reading.prices, reading.taxRate);
      if left == 0 { return CutShort; }
      rows := rows[i := Priced(rows[i], bill)];
      if left == 1 { return CutShort; }
      rows := ReplaceLineItems(rows, i, bill.lines);
      done := CheckAndNotifyBillShock(i, threshold, left - 2);
      outcome := if done then Ok(bill.total) else CutShort;
    }

    /** Bills a finalized month again and records the difference, if there is one, as a row of its own. */
    method CorrectInvoice(m: int, reading: Reading, budget: nat) returns (verdict: Verdict)
      modifies this
      ensures Correction(rows, verdict) == Correct(old(rows), m, reading, budget)
      ensures notices == old(notices)
    {
      var finalized, sum, items := RunningTotals(m);
      if !finalized { return NotFinalized; }
      var kept := TotalOf(items, PROVISIONABLE).quantity;
      var bill := CalculateInvoice(WithQuantity(reading.usage, PROVISIONABLE, kept), reading.prices, reading.taxRate);
      var bare := Invoice(m, Corrected, bill.subtotal - sum.subtotal, bill.tax - sum.tax, bill.total - sum.total, [], false);
      if bare.subtotal == 0 && bare.tax == 0 && bare.total == 0 { return NoChange; }
      if budget == 0 { return Interrupted; }
      rows := rows + [bare];
      if budget == 1 { return Interrupted; }
      var deltas := Differences(old(rows), m, bill.lines, items);
      rows := ReplaceLineItems(rows, |rows| - 1, deltas);
      verdict := Added;
    }

    /** What the month has been billed so far, in money and by item, and whether it is final. */
    method RunningTotals(m: int) returns (finalized: bool, sum: Money, items: map<string, ItemTotal>)
      ensures finalized == HasFinalized(rows, m)
      ensures sum == MonthMoney(rows, m)
      ensures forall key :: TotalOf(items, key) == ItemTotal(ItemQuantity(rows, m, key), ItemAmount(rows, m, key))
    {
      finalized, sum, items := false, Money(0, 0, 0), map[];
      for i := 0 to |rows|
        invariant finalized == HasFinalized(rows[..i], m)
        invariant sum == MonthMoney(rows[..i], m)
        invariant forall key :: TotalOf(items, key) == ItemTotal(ItemQuantity(rows[..i], m, key), ItemAmount(rows[..i], m, key))
      {
        assert rows[..i + 1][..i] == rows[..i];
        FinalizedSoFar(rows, i, m);
        if rows[i].month == m {
          finalized := finalized || rows[i].status.Finalized?;
          sum := Money(sum.subtotal + rows[i].subtotal, sum.tax + rows[i].tax, sum.total + rows[i].total);
          items := AddLines(items, rows[i].lines);
        }
      }
      assert rows[..|rows|] == rows;
    }

    // ----- The two aggregated views ------------------------------------------------------------------

    /** All months, latest first, each with the sums over its rows. */
    method ListInvoicesAggregated() returns (result: seq<Summary>)
      ensures forall i, j :: 0 <= i < j < |result| ==> result[i].month > result[j].month
      ensures forall m :: Listed(result, m) <==> HasMonth(rows, m)
      ensures forall i :: 0 <= i < |result| ==> result[i] == SummaryOf(rows, result[i].month)
    {
      var byMonth := GroupByMonth(rows);
      var months := MonthsDescending(rows);
      result := [];
      for i := 0 to |months|
        invariant |result| == i
        invariant forall k :: 0 <= k < i ==> result[k].month == months[k] && result[k] == SummaryOf(rows, months[k])
      {
        var m := months[i];
        assert m in months;
        var group := byMonth[m];
        GroupSums(rows, m);
        result := result + [Summary(m, HasDraft(group, m), MonthMoney(group, m), |CorrectionsOf(group, m)|)];
      }
      forall m ensures Listed(result, m) <==> HasMonth(rows, m) {
        assert Listed(result, m) <==> m in months by {
          if m in months {
            var i :| 0 <= i < |months| && months[i] == m;
            assert result[i].month == m;
          }
        }
      }
    }

    /** The month's line items: the totals and latest unit price of each, in the items' order. */
    method LineItems(m: int) returns (lines: seq<Line>)
      ensures InvoiceDetail.Ordered(lines)
      ensures forall line :: line in lines <==> InvoiceDetail.Entry(rows, m, line.key) == Some(line)
    {
      hide InvoiceDetail.Entry;
      hide InvoiceDetail.Taken;
      hide InvoiceDetail.Ordered;
      var items := map[];
      NoEntries(m);
      for i := 0 to |rows|
        invariant forall key :: InvoiceDetail.Find(items, key) == InvoiceDetail.Entry(rows[..i], m, key)
      {
        var r := rows[i];
        forall key
          ensures InvoiceDetail.Entry(rows[..i + 1], m, key)
               == if r.month == m then InvoiceDetail.Taken(InvoiceDetail.Entry(rows[..i], m, key), r.lines, key)
                  else InvoiceDetail.Entry(rows[..i], m, key)
        {
          InvoiceDetail.EntryTakes(rows, i, m, key);
        }
        if r.month == m { items := InvoiceDetail.AddLines(items, r.lines); }
      }
      assert rows[..|rows|] == rows;
      forall key | key in items ensures items[key].key == key {
        assert InvoiceDetail.Find(items, key) == InvoiceDetail.Entry(rows, m, key);
      }
      lines := InvoiceDetail.InOrder(items);
    }

    /** One month: the sums over its rows, the corrections applied, and its line items. */
    method GetInvoiceDetailAggregated(m: int) returns (detail: Option<Detail>)
      ensures detail.None? <==> forall i :: 0 <= i < |rows| ==> rows[i].month != m
      ensures detail.Some? ==>
                && detail.value.money == MonthMoney(rows, m)
                && detail.value.draft == HasDraft(rows, m)
                && detail.value.corrections == CorrectionsOf(rows, m)
                && InvoiceDetail.Ordered(detail.value.lines)
                && forall line :: line in detail.value.lines <==> InvoiceDetail.Entry(rows, m, line.key) == Some(line)
    {
      hide InvoiceDetail.Entry;
      hide InvoiceDetail.Ordered;
      hide HasDraft;
      NoDraftYet(m);
      var found, draft := false, false;
      var sum := Money(0, 0, 0);
      var corrections := [];
      for i := 0 to |rows|
        invariant found <==> exists k :: 0 <= k < i && rows[k].month == m
        invariant draft == HasDraft(rows[..i], m)
        invariant sum == MonthMoney(rows[..i], m)
        invariant corrections == CorrectionsOf(rows[..i], m)
      {
        var r := rows[i];
        assert rows[..i + 1][..i] == rows[..i];
        DraftSoFar(rows, i, m);
        if r.month == m {
          found, draft := true, draft || r.status.Draft?;
          sum := Money(sum.subtotal + r.subtotal, sum.tax + r.tax, sum.total + r.total);
          if r.status.Corrected? {
            corrections := corrections + [Money(r.subtotal, r.tax, r.total)];
          }
        }
      }
      assert rows[..|rows|] == rows;
      if !found { return None; }
      var lines := LineItems(m);
      detail := Some(Detail(draft, sum, corrections, lines));
    }
  }

  lemma NoDraftYet(m: int)
    ensures !HasDraft([], m)
  {
  }

  lemma NoEntries(m: int)
    ensures forall key :: InvoiceDetail.Entry([], m, key) == None
  {
  }

  lemma QuoteIs(r: Reading, kept: int)
    ensures Quote(r, kept) == InvoiceFor(WithQuantity(r.usage, PROVISIONABLE, kept), r.prices, r.taxRate)
  {
  }

  lemma BackfillUnfolds(rows: Rows, next: int, current: int, kept: int, read: int -> Reading, budget: nat)
    ensures var p := BackfillFrom(rows, next, current, kept, read, budget);
            if next >= current then p == Phase(rows, budget, true)
            else if budget == 0 then p == Phase(rows, 0, false)
            else
              var bill := Quote(read(next), kept);
              var bare := Priced(Blank(next, Finalized), bill);
              if budget == 1 then p == Phase(rows + [bare], 0, false)
              else p == BackfillFrom(rows + [bare.(lines := bill.lines)], next + 1, current, kept, read, budget - 2)
  {
  }

  lemma FinalizedSoFar(rows: Rows, i: nat, m: int)
    requires i < |rows|
    ensures HasFinalized(rows[..i + 1], m) <==> HasFinalized(rows[..i], m) || (rows[i].month == m && rows[i].status.Finalized?)
  {
    assert rows[..i + 1][i] == rows[i];
    if HasFinalized(rows[..i], m) {
      var k :| 0 <= k < i && rows[..i][k].month == m && rows[..i][k].status.Finalized?;
      assert rows[..i + 1][k] == rows[k];
    }
    if HasFinalized(rows[..i + 1], m) {
      var k :| 0 <= k < i + 1 && rows[..i + 1][k].month == m && rows[..i + 1][k].status.Finalized?;
      assert k < i ==> rows[..i][k] == rows[k];
    }
  }

  /** The months strictly between two months, through their texts as the table stores them. */
  method MissingMonths(latest: int, current: int) returns (months: seq<int>)
    requires Calendar.InCalendar(latest) && Calendar.InCalendar(current)
    ensures |months| == if latest + 1 < current then current - latest - 1 else 0
    ensures forall i :: 0 <= i < |months| ==> months[i] == latest + 1 + i
  {
    hide Calendar.Parse;
    hide Calendar.Print;
    hide Calendar.FromIndex;
    Calendar.ParseUndoesPrint(latest);
    Calendar.ParseUndoesPrint(current);
    var texts := Calendar.MonthsBetweenExclusive(Calendar.Print(latest), Calendar.Print(current));
    months := [];
    for i := 0 to |texts|
      invariant |months| == i
      invariant forall k :: 0 <= k < i ==> months[k] == latest + 1 + k
    {
      Calendar.ParseUndoesPrint(latest + 1 + i);
      months := months + [Calendar.Parse(texts[i]).value.Index()];
    }
  }

  /** The lines of a correction: fresh minus running, item by item. */
  method Differences(ghost rows: Rows, m: int, lines: seq<Line>, running: map<string, ItemTotal>) returns (deltas: seq<Line>)
    requires forall key :: TotalOf(running, key) == ItemTotal(ItemQuantity(rows, m, key), ItemAmount(rows, m, key))
    ensures deltas == DeltaLines(rows, m, lines)
  {
    deltas := [];
    for k := 0 to |lines|
      invariant deltas == DeltaLines(rows, m, lines)[..k]
    {
      var line, acc := lines[k], TotalOf(running, lines[k].key);
      deltas := deltas + [Line(line.key, line.quantity - acc.quantity, line.unitPrice, line.amount - acc.amount)];
    }
    assert DeltaLines(rows, m, lines)[..|lines|] == DeltaLines(rows, m, lines);
  }

  method GroupByMonth(rows: Rows) returns (byMonth: map<int, Rows>)
    ensures forall m :: m in byMonth <==> HasMonth(rows, m)
    ensures forall m :: m in byMonth ==> byMonth[m] == RowsOf(rows, m)
  {
    byMonth := map[];
    for i := 0 to |rows|
      invariant forall m :: m in byMonth <==> RowsOf(rows[..i], m) != []
      invariant forall m :: m in byMonth ==> byMonth[m] == RowsOf(rows[..i], m)
    {
      assert rows[..i + 1][..i] == rows[..i];
      var m := rows[i].month;
      byMonth := byMonth[m := (if m in byMonth then byMonth[m] else []) + [rows[i]]];
    }
    assert rows[..|rows|] == rows;
    forall m ensures RowsOf(rows, m) != [] <==> HasMonth(rows, m) { GroupIsEmptyIff(rows, m); }
  }

  lemma {:induction false} GroupIsEmptyIff(rows: Rows, m: int)
    ensures RowsOf(rows, m) != [] <==> HasMonth(rows, m)
  {
    if rows != [] {
      var n := |rows| - 1;
      GroupIsEmptyIff(rows[..n], m);
      if HasMonth(rows[..n], m) {
        var i :| 0 <= i < n && rows[..n][i].month == m;
        assert rows[i].month == m;
      }
      if HasMonth(rows, m) && rows[n].month != m {
        var i :| 0 <= i < |rows| && rows[i].month == m;
        assert rows[..n][i].month == m;
      }
    }
  }

  ghost predicate Listed(result: seq<Summary>, m: int) { exists i :: 0 <= i < |result| && result[i].month == m }

  function InsertDescending(sorted: seq<int>, m: int): seq<int> {
    if sorted == [] || m > sorted[0] then [m] + sorted
    else if m == sorted[0] then sorted
    else [sorted[0]] + InsertDescending(sorted[1..], m)
  }

  ghost predicate Descending(s: seq<int>) { forall i, j :: 0 <= i < j < |s| ==> s[i] > s[j] }

  lemma {:induction false} InsertKeepsOrder(sorted: seq<int>, m: int)
    requires Descending(sorted)
    ensures Descending(InsertDescending(sorted, m))
    ensures forall k :: k in InsertDescending(sorted, m) <==> k in sorted || k == m
  {
    if sorted == [] || m >= sorted[0] {
    } else {
      InsertKeepsOrder(sorted[1..], m);
      var rest := InsertDescending(sorted[1..], m);
      forall k | k in rest ensures sorted[0] > k {
        if k in sorted[1..] { var i :| 0 <= i < |sorted| - 1 && sorted[1..][i] == k; assert sorted[i + 1] == k; }
      }
      forall j | 0 <= j < |rest| ensures sorted[0] > rest[j] { assert rest[j] in rest; }
      assert sorted == [sorted[0]] + sorted[1..];
    }
  }

  /** The distinct months of the table, latest first. */
  method MonthsDescending(rows: Rows) returns (months: seq<int>)
    ensures Descending(months)
    ensures forall m :: m in months <==> HasMonth(rows, m)
  {
    months := [];
    for i := 0 to |rows|
      invariant Descending(months)
      invariant forall m :: m in months <==> exists k :: 0 <= k < i && rows[k].month == m
    {
      InsertKeepsOrder(months, rows[i].month);
      months := InsertDescending(months, rows[i].month);
    }
  }

  /** What the list says of a month: sums over all its rows, draft if any row is. */
  function SummaryOf(rows: Rows, m: int): Summary {
    Summary(m, HasDraft(rows, m), MonthMoney(rows, m), |CorrectionsOf(rows, m)|)
  }

  predicate HasDraft(rows: Rows, m: int) {
    exists i :: 0 <= i < |rows| && rows[i].month == m && rows[i].status.Draft?
  }

  lemma DraftSoFar(rows: Rows, i: nat, m: int)
    requires i < |rows|
    ensures HasDraft(rows[..i + 1], m) <==> HasDraft(rows[..i], m) || (rows[i].month == m && rows[i].status.Draft?)
  {
    assert rows[..i + 1][i] == rows[i];
    if HasDraft(rows[..i], m) {
      var k :| 0 <= k < i && rows[..i][k].month == m && rows[..i][k].status.Draft?;
      assert rows[..i + 1][k] == rows[k];
    }
    if HasDraft(rows[..i + 1], m) {
      var k :| 0 <= k < i + 1 && rows[..i + 1][k].month == m && rows[..i + 1][k].status.Draft?;
      assert k < i ==> rows[..i][k] == rows[k];
    }
  }

  /** The differences of the month's corrections, in the order they were made. */
  function CorrectionsOf(rows: Rows, m: int): seq<Money> {
    if rows == [] then []
    else
      var r := rows[|rows| - 1];
      CorrectionsOf(rows[..|rows| - 1], m) + if r.month == m && r.status.Corrected? then [Money(r.subtotal, r.tax, r.total)] else []
  }

  /** They are those of the corrected rows of the month, and of no other. */
  lemma {:induction false} CorrectionsFollow(a: Rows, b: Rows, m: int)
    ensures CorrectionsOf(a + b, m) == CorrectionsOf(a, m) + CorrectionsOf(b, m)
    ensures |b| == 1 ==>
              CorrectionsOf(b, m)
              == if b[0].month == m && b[0].status.Corrected? then [Money(b[0].subtotal, b[0].tax, b[0].total)] else []
    decreases |b|
  {
    if b == [] {
      assert a + b == a;
    } else {
      assert (a + b)[..|a + b| - 1] == a + b[..|b| - 1];
      CorrectionsFollow(a, b[..|b| - 1], m);
    }
  }

  /** A month is shown as a draft when a row of it is one, with its sums and the number of its corrections. */
  lemma SummarySays(rows: Rows, m: int)
    ensures var s := SummaryOf(rows, m);
            && s.month == m && s.money == MonthMoney(rows, m) && s.corrections == |CorrectionsOf(rows, m)|
            && (s.draft <==> exists i :: 0 <= i < |rows| && rows[i].month == m && rows[i].status.Draft?)
  {
  }

  function RowsOf(rows: Rows, m: int): Rows {
    if rows == [] then []
    else
      var r := rows[|rows| - 1];
      RowsOf(rows[..|rows| - 1], m) + if r.month == m then [r] else []
  }

  /** Summing a month's group is summing the month over the whole table. */
  lemma {:induction false} GroupSums(rows: Rows, m: int)
    ensures SummaryOf(RowsOf(rows, m), m) == SummaryOf(rows, m)
  {
    if rows != [] {
      var n := |rows| - 1;
      var before, r := RowsOf(rows[..n], m), rows[n];
      GroupSums(rows[..n], m);
      DraftSoFar(rows, n, m);
      assert rows[..n + 1] == rows;
      if r.month == m {
        var group := before + [r];
        assert group[..|before|] == before && group[|before|] == r && group[..|before| + 1] == group;
        DraftSoFar(group, |before|, m);
        assert RowsOf(rows, m) == group;
      } else {
        assert RowsOf(rows, m) == before;
      }
    }
  }
}
