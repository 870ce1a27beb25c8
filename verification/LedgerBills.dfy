/** What the rows of the ledger are billed at: every month from its own usage, prices and tax rate, item by item. */
module LedgerBills {
  import opened Basics
  import opened Billing
  import opened Ledger
  import opened LedgerSound
  import opened LedgerMoney
  import opened LedgerRuns
  import LedgerNotices
  import Prices

  // ----- The bill of a month, said without the functions that compute it -----------------------------

  /** How many of an item: as read, but the provisionable devices as kept, where a number is kept. */
  function Count(r: Reading, kept: Option<int>, k: nat): int
    requires Full(r) && k < |Prices.ITEM_KEYS|
  {
    if Prices.ITEM_KEYS[k] == "provisionable_devices" && kept.Some? then kept.value else r.usage[k].quantity
  }

  /** An item without a price is free. */
  function PriceAt(r: Reading, k: nat): int
    requires k < |Prices.ITEM_KEYS|
  {
    if Prices.ITEM_KEYS[k] in r.prices then r.prices[Prices.ITEM_KEYS[k]] else 0
  }

  function Charge(r: Reading, kept: Option<int>, k: nat): int
    requires Full(r) && k < |Prices.ITEM_KEYS|
  {
    RoundDown(Count(r, kept, k) * PriceAt(r, k))
  }

  function Charges(r: Reading, kept: Option<int>, n: nat): int
    requires Full(r) && n <= |Prices.ITEM_KEYS|
  {
    if n == 0 then 0 else Charges(r, kept, n - 1) + Charge(r, kept, n - 1)
  }

  /** Money for the reading: the charges of the eleven items, the tax on their sum, and both together. */
  ghost predicate Costs(sum: Money, r: Reading, kept: Option<int>)
    requires Full(r)
  {
    && sum.subtotal == Charges(r, kept, |Prices.ITEM_KEYS|)
    && sum.tax == RoundDown(sum.subtotal * r.taxRate)
    && sum.total == sum.subtotal + sum.tax
  }

  /** Lines for the reading: one for each of the eleven items, in their order. */
  ghost predicate Itemizes(lines: seq<Line>, r: Reading, kept: Option<int>)
    requires Full(r)
  {
    && |lines| == |Prices.ITEM_KEYS|
    && forall k :: 0 <= k < |lines| ==> lines[k] == Line(Prices.ITEM_KEYS[k], Count(r, kept, k), PriceAt(r, k), Charge(r, kept, k))
  }

  function MoneyOf(inv: Invoice): Money { Money(inv.subtotal, inv.tax, inv.total) }

  lemma {:induction false} ChargesAdd(usage: seq<UsageItem>, r: Reading, kept: Option<int>, n: nat)
    requires Full(r) && |usage| == |Prices.ITEM_KEYS| && n <= |usage|
    requires forall k :: 0 <= k < |usage| ==> usage[k] == UsageItem(Prices.ITEM_KEYS[k], Count(r, kept, k))
    ensures SumAmounts(LinesFor(usage, r.prices)[..n]) == Charges(r, kept, n)
  {
    if n > 0 {
      ChargesAdd(usage, r, kept, n - 1);
      assert LinesFor(usage, r.prices)[..n][..n - 1] == LinesFor(usage, r.prices)[..n - 1];
    }
  }

  lemma InvoiceCosts(usage: seq<UsageItem>, r: Reading, kept: Option<int>)
    requires Full(r) && |usage| == |Prices.ITEM_KEYS|
    requires forall k :: 0 <= k < |usage| ==> usage[k] == UsageItem(Prices.ITEM_KEYS[k], Count(r, kept, k))
    ensures var bill := InvoiceFor(usage, r.prices, r.taxRate);
            Costs(BillMoney(bill), r, kept) && Itemizes(bill.lines, r, kept)
  {
    ChargesAdd(usage, r, kept, |usage|);
    assert LinesFor(usage, r.prices)[..|usage|] == LinesFor(usage, r.prices);
  }

  /** The bill of the current month: everything as read. */
  lemma ReadingCosts(r: Reading)
    requires Full(r)
    ensures var bill := InvoiceFor(r.usage, r.prices, r.taxRate);
            Costs(BillMoney(bill), r, None) && Itemizes(bill.lines, r, None)
  {
    InvoiceCosts(r.usage, r, None);
  }

  /** The bill of a past month: everything as read, except the provisionable devices. */
  lemma QuoteCosts(r: Reading, q: int)
    requires Full(r)
    ensures Costs(BillMoney(Quote(r, q)), r, Some(q)) && Itemizes(Quote(r, q).lines, r, Some(q))
  {
    DevicesKey();
    forall i | 0 <= i < |Prices.ITEM_KEYS| && i != DEVICES ensures Prices.ITEM_KEYS[i] != PROVISIONABLE {
      if i < DEVICES { KeysDiffer(i, DEVICES); } else { KeysDiffer(DEVICES, i); }
    }
    WithQuantityAt(r.usage, DEVICES, PROVISIONABLE, q);
    InvoiceCosts(WithQuantity(r.usage, PROVISIONABLE, q), r, Some(q));
  }

  // ----- Finalizing ----------------------------------------------------------------------------------

  /** The number kept is that of the first line about the devices; without one it is zero. */
  lemma {:induction false} DevicesShown(lines: seq<Line>, n: nat)
    requires n <= |lines| && forall k :: 0 <= k < n ==> lines[k].key != "provisionable_devices"
    requires n < |lines| ==> lines[n].key == "provisionable_devices"
    ensures FirstQuantity(lines, PROVISIONABLE) == if n < |lines| then lines[n].quantity else 0
  {
    if n > 0 { DevicesShown(lines[1..], n - 1); }
  }

  /** How many of these rows are drafts of an earlier month. */
  function StaleIn(rows: Rows, i: nat, j: nat, current: int): nat
    requires i <= j <= |rows|
    decreases j - i
  {
    if i == j then 0 else (if rows[i].status.Draft? && rows[i].month < current then 1 else 0) + StaleIn(rows, i + 1, j, current)
  }

  lemma {:induction false} StaleInSame(rows: Rows, rows': Rows, i: nat, j: nat, current: int)
    requires i <= j <= |rows| == |rows'| && forall k :: i <= k < j ==> rows'[k] == rows[k]
    ensures StaleIn(rows', i, j, current) == StaleIn(rows, i, j, current)
    decreases j - i
  {
    if i < j { StaleInSame(rows, rows', i + 1, j, current); }
  }

  /** A draft made final at the bill of its own month; its lines are replaced in a second commit. */
  ghost predicate Settles(was: Invoice, row: Invoice, r: Reading, whole: bool)
    requires Full(r)
  {
    var kept := Some(FirstQuantity(was.lines, PROVISIONABLE));
    && row.month == was.month && row.status.Finalized? && row.notified == was.notified
    && Costs(MoneyOf(row), r, kept)
    && if whole then Itemizes(row.lines, r, kept) else row.lines == was.lines
  }

  lemma DraftSettles(row: Invoice, r: Reading)
    requires Full(r)
    ensures var bill := Quote(r, FirstQuantity(row.lines, PROVISIONABLE));
            var settled := Priced(row, bill).(status := Finalized);
            Settles(row, settled, r, false) && Settles(row, settled.(lines := bill.lines), r, true)
  {
    hide Quote;
    hide Costs;
    hide Itemizes;
    QuoteCosts(r, FirstQuantity(row.lines, PROVISIONABLE));
  }

  /**
   Row by row, at every cut: the drafts of earlier months are settled in order, two commits each, every one from the
   reading of its own month; nothing else changes.
   */
  lemma {:induction false} FinalizeBills(rows: Rows, i: nat, current: int, read: int -> Reading, budget: nat, j: nat)
    requires i <= |rows| && j < |rows| && AllFull(read)
    ensures var p := FinalizeFrom(rows, i, current, read, budget);
            && |p.rows| == |rows|
            && (p.done <==> budget >= 2 * StaleIn(rows, i, |rows|, current))
            && p.left == (if p.done then budget - 2 * StaleIn(rows, i, |rows|, current) else 0)
            && if j < i || !rows[j].status.Draft? || rows[j].month >= current || budget <= 2 * StaleIn(rows, i, j, current)
               then p.rows[j] == rows[j]
               else Settles(rows[j], p.rows[j], read(rows[j].month), budget >= 2 * StaleIn(rows, i, j, current) + 2)
    decreases |rows| - i
  {
    hide Quote;
    hide Settles;
    hide FirstQuantity;
    if i == |rows| {
    } else if !IsStale(rows[i], current) {
      FinalizeBills(rows, i + 1, current, read, budget, j);
    } else {
      DraftSettles(rows[i], read(rows[i].month));
      var bill := Quote(read(rows[i].month), FirstQuantity(rows[i].lines, PROVISIONABLE));
      var full := Priced(rows[i], bill).(status := Finalized, lines := bill.lines);
      StaleInSame(rows, rows[i := full], i + 1, |rows|, current);
      if j > i { StaleInSame(rows, rows[i := full], i + 1, j, current); }
      if budget >= 2 { FinalizeBills(rows[i := full], i + 1, current, read, budget - 2, j); }
    }
  }

  // ----- Months without an invoice -------------------------------------------------------------------

  /** A finalized invoice made for a month that had none; its lines are added in a second commit. */
  ghost predicate Fills(row: Invoice, month: int, r: Reading, kept: int, whole: bool)
    requires Full(r)
  {
    && row.month == month && row.status.Finalized? && !row.notified
    && Costs(MoneyOf(row), r, Some(kept))
    && if whole then Itemizes(row.lines, r, Some(kept)) else row.lines == []
  }

  function Least(a: int, b: int): int { if a < b then a else b }

  /** How many months there are to fill. */
  function Missing(next: int, current: int): nat { if next < current then current - next else 0 }

  /** At every cut: the missing months are filled in order, two commits each, every one from its own reading. */
  lemma {:induction false} BackfillBills(rows: Rows, next: int, current: int, kept: int, read: int -> Reading, budget: nat)
    requires AllFull(read)
    ensures var p := BackfillFrom(rows, next, current, kept, read, budget);
            && |p.rows| == |rows| + Least(Missing(next, current), (budget + 1) / 2)
            && p.rows[..|rows|] == rows
            && (forall k :: |rows| <= k < |p.rows| ==>
                  Fills(p.rows[k], next + k - |rows|, read(next + k - |rows|), kept, budget >= 2 * (k - |rows|) + 2))
            && (p.done <==> budget >= 2 * Missing(next, current))
            && p.left == if p.done then budget - 2 * Missing(next, current) else 0
    decreases current - next
  {
    hide Quote;
    hide Costs;
    hide Itemizes;
    if next < current && budget > 0 {
      var bill := Quote(read(next), kept);
      QuoteCosts(read(next), kept);
      var full := Priced(Blank(next, Finalized), bill).(lines := bill.lines);
      if budget > 1 {
        BackfillBills(rows + [full], next + 1, current, kept, read, budget - 2);
        var p := BackfillFrom(rows + [full], next + 1, current, kept, read, budget - 2);
        assert p.rows[|rows|] == p.rows[..|rows| + 1][|rows|] == full;
        assert p.rows[..|rows|] == p.rows[..|rows| + 1][..|rows|];
      }
    }
  }

  // ----- The current month ---------------------------------------------------------------------------

  /** At every cut: the draft is billed from the current reading, devices and all, and then its lines are replaced. */
  lemma RefreshBills(s: State, i: nat, r: Reading, threshold: Option<int>, budget: nat)
    requires Full(r) && i < |s.rows| && s.rows[i].status.Draft?
    ensures var res := Refresh(s, i, r, threshold, budget);
            var row := res.state.rows[i];
            && |res.state.rows| == |s.rows| && (forall j :: 0 <= j < |s.rows| && j != i ==> res.state.rows[j] == s.rows[j])
            && (if budget == 0 then row == s.rows[i] else Costs(MoneyOf(row), r, None))
            && (if budget < 2 then row.lines == s.rows[i].lines else Itemizes(row.lines, r, None))
            && var due := threshold.Some? && row.total > threshold.value && !s.rows[i].notified;
               res.outcome == if budget >= (if due then 4 else 2) then Ok(row.total) else CutShort
  {
    hide Costs;
    hide Itemizes;
    hide InvoiceFor;
    ReadingCosts(r);
  }

  /** The current month's draft is the row there is, or a blank one added in a commit. */
  lemma OpenDraftSays(rows: Rows, current: int, budget: nat)
    ensures OpenDraft(rows, current, budget)
         == if exists j :: 0 <= j < |rows| && rows[j].month == current then Phase(rows, budget, true)
            else if budget == 0 then Phase(rows, 0, false)
            else Phase(rows + [Invoice(current, Draft, 0, 0, 0, [], false)], budget - 1, true)
  {
    var i := FindMonth(rows, current);
    assert i < |rows| ==> rows[i].month == current;
  }

  // ----- A whole batch -------------------------------------------------------------------------------

  /** What a completed batch does to a row that is not the current month's draft. */
  ghost predicate Billed(rows: Rows, rows': Rows, j: nat, current: int, read: int -> Reading, kept: int)
    requires AllFull(read) && j < |rows'|
  {
    if j >= |rows| then Fills(rows'[j], rows'[j].month, read(rows'[j].month), kept, true)
    else if rows[j].status.Draft? && rows[j].month < current then Settles(rows[j], rows'[j], read(rows[j].month), true)
    else rows'[j] == rows[j]
  }

  lemma {:induction false} StaleCounts(rows: Rows, i: nat, j: nat, current: int)
    requires i <= j < |rows| && rows[j].status.Draft? && rows[j].month < current
    ensures StaleIn(rows, i, |rows|, current) >= StaleIn(rows, i, j, current) + 1
    decreases j - i
  {
    if i < j { StaleCounts(rows, i + 1, j, current); }
  }

  /** The number of devices that a batch gives to the months it fills. */
  function PickedDevices(rows: Rows, pick: nat): int
    requires LegalPick(rows, pick)
  {
    if rows == [] then 0 else FirstQuantity(rows[pick].lines, PROVISIONABLE)
  }

  lemma BackfillRow(rows: Rows, current: int, pick: nat, read: int -> Reading, budget: nat, j: nat)
    requires LegalPick(rows, pick) && AllFull(read) && Backfill(rows, current, pick, read, budget).done
    ensures var a := Backfill(rows, current, pick, read, budget).rows;
            && |rows| <= |a|
            && (j < |rows| ==> a[j] == rows[j])
            && (|rows| <= j < |a| ==> Fills(a[j], a[j].month, read(a[j].month), PickedDevices(rows, pick), true))
  {
    hide BackfillFrom;
    hide FirstQuantity;
    hide Fills;
    if rows != [] {
      var next, kept := Latest(rows) + 1, FirstQuantity(rows[pick].lines, PROVISIONABLE);
      var a := BackfillFrom(rows, next, current, kept, read, budget).rows;
      BackfillBills(rows, next, current, kept, read, budget);
      if j < |rows| { assert a[..|rows|][j] == a[j]; }
      if |rows| <= j < |a| { FillsItsMonth(a[j], next + j - |rows|, read(next + j - |rows|), kept); }
    }
  }

  lemma FillsItsMonth(row: Invoice, month: int, r: Reading, kept: int)
    requires Full(r) && Fills(row, month, r, kept, true)
    ensures row.month == month && row.status.Finalized?
  {
  }

  lemma FinalizeRow(rows: Rows, current: int, read: int -> Reading, budget: nat, j: nat)
    requires AllFull(read) && j < |rows| && FinalizeFrom(rows, 0, current, read, budget).done
    ensures var b := FinalizeFrom(rows, 0, current, read, budget).rows;
            && |b| == |rows|
            && if rows[j].status.Draft? && rows[j].month < current then Settles(rows[j], b[j], read(rows[j].month), true) else b[j] == rows[j]
  {
    hide FinalizeFrom;
    hide Settles;
    FinalizeBills(rows, 0, current, read, budget, j);
    if rows[j].status.Draft? && rows[j].month < current { StaleCounts(rows, 0, j, current); }
  }

  lemma FinalizeLength(rows: Rows, current: int, read: int -> Reading, budget: nat)
    requires AllFull(read)
    ensures |FinalizeFrom(rows, 0, current, read, budget).rows| == |rows|
  {
    if rows != [] { FinalizeBills(rows, 0, current, read, budget, 0); }
  }

  lemma BatchRow(s: State, current: int, pick: nat, read: int -> Reading, budget: nat, j: nat)
    requires LegalPick(s.rows, pick) && AllFull(read)
    requires var a := Backfill(s.rows, current, pick, read, budget);
             a.done && j < |a.rows| && FinalizeFrom(a.rows, 0, current, read, a.left).done
    ensures var a := Backfill(s.rows, current, pick, read, budget);
            var b := FinalizeFrom(a.rows, 0, current, read, a.left).rows;
            |b| == |a.rows| && Billed(s.rows, b, j, current, read, PickedDevices(s.rows, pick))
  {
    hide Backfill;
    hide FinalizeFrom;
    hide Settles;
    hide PickedDevices;
    var a := Backfill(s.rows, current, pick, read, budget);
    BackfillRow(s.rows, current, pick, read, budget, j);
    FinalizeRow(a.rows, current, read, a.left, j);
  }

  lemma LaterRowsDoNotMatter(rows: Rows, b: Rows, c: Rows, j: nat, current: int, read: int -> Reading, kept: int)
    requires AllFull(read) && j < |b| && j < |c| && b[j] == c[j] && Billed(rows, b, j, current, read, kept)
    ensures Billed(rows, c, j, current, read, kept)
  {
  }

  /**
   A batch that is not cut: each draft of an earlier month is settled from that month's reading, each month that had no
   invoice is filled from its own, the current month's draft is billed from the current one, and no other row changes.
   */
  lemma BatchBills(s: State, now: int, current: int, pick: nat, read: int -> Reading, threshold: Option<int>, budget: nat)
    requires Sound(s.rows, now) && now <= current && LegalPick(s.rows, pick) && AllFull(read)
    requires Batch(s, current, pick, read, threshold, budget).outcome.Ok?
    ensures var res := Batch(s, current, pick, read, threshold, budget);
            var rows', i, kept := res.state.rows, FindMonth(res.state.rows, current), PickedDevices(s.rows, pick);
            && |s.rows| <= |rows'| && i < |rows'| && rows'[i].status.Draft? && res.outcome.total == rows'[i].total
            && Costs(MoneyOf(rows'[i]), read(current), None) && Itemizes(rows'[i].lines, read(current), None)
            && forall j: nat :: j < |rows'| && j != i ==> Billed(s.rows, rows', j, current, read, kept)
  {
    hide Sound;
    hide Backfill;
    hide FinalizeFrom;
    hide Refresh;
    hide Costs;
    hide Itemizes;
    hide Billed;
    hide PickedDevices;
    LedgerNotices.BatchPlacesDraft(s, now, current, pick, read, budget);
    var a := Backfill(s.rows, current, pick, read, budget);
    var b := FinalizeFrom(a.rows, 0, current, read, a.left);
    var c := OpenDraft(b.rows, current, b.left);
    OpenDraftFinds(b.rows, current, b.left);
    FinalizeLength(a.rows, current, read, a.left);
    var i := FindMonth(c.rows, current);
    var rows' := Refresh(s.(rows := c.rows), i, read(current), threshold, c.left).state.rows;
    RefreshBills(s.(rows := c.rows), i, read(current), threshold, c.left);
    RefreshFrame(s.(rows := c.rows), i, read(current), threshold, c.left);
    LedgerNotices.SameMonthsSameFind(c.rows, rows', current);
    BackfillRow(s.rows, current, pick, read, budget, 0);
    forall j: nat | j < |rows'| && j != i ensures Billed(s.rows, rows', j, current, read, PickedDevices(s.rows, pick)) {
      if j < |a.rows| {
        BatchRow(s, current, pick, read, budget, j);
        LaterRowsDoNotMatter(s.rows, b.rows, rows', j, current, read, PickedDevices(s.rows, pick));
      }
    }
  }

  // ----- When a batch ends ---------------------------------------------------------------------------

  lemma {:induction false} StaleInMore(rows: Rows, more: Rows, i: nat, current: int)
    requires i <= |rows| && |rows| <= |more| && more[..|rows|] == rows
    requires forall j :: |rows| <= j < |more| ==> !more[j].status.Draft?
    ensures StaleIn(more, i, |more|, current) == StaleIn(rows, i, |rows|, current)
    decreases |rows| - i
  {
    if i < |rows| {
      assert more[i] == more[..|rows|][i];
      StaleInMore(rows, more, i + 1, current);
    } else {
      NoneStale(more, i, current);
    }
  }

  lemma {:induction false} NoneStale(rows: Rows, i: nat, current: int)
    requires i <= |rows| && forall j :: i <= j < |rows| ==> !rows[j].status.Draft?
    ensures StaleIn(rows, i, |rows|, current) == 0
    decreases |rows| - i
  {
    if i < |rows| { NoneStale(rows, i + 1, current); }
  }

  /** How many months a batch has to fill. */
  function Gap(rows: Rows, current: int): nat { if rows == [] then 0 else Missing(Latest(rows) + 1, current) }

  /** The backfill ends exactly when two commits a month take effect, and changes no stale draft and no current month. */
  lemma BackfillNeeds(rows: Rows, current: int, pick: nat, read: int -> Reading, budget: nat)
    requires LegalPick(rows, pick) && AllFull(read)
    ensures var a := Backfill(rows, current, pick, read, budget);
            && (a.done <==> budget >= 2 * Gap(rows, current)) && (a.done ==> a.left == budget - 2 * Gap(rows, current))
            && StaleIn(a.rows, 0, |a.rows|, current) == StaleIn(rows, 0, |rows|, current)
            && |rows| <= |a.rows| && a.rows[..|rows|] == rows && (forall j :: |rows| <= j < |a.rows| ==> a.rows[j].month < current)
  {
    hide BackfillFrom;
    hide FirstQuantity;
    hide Costs;
    hide Itemizes;
    var a := Backfill(rows, current, pick, read, budget);
    if rows != [] {
      BackfillBills(rows, Latest(rows) + 1, current, FirstQuantity(rows[pick].lines, PROVISIONABLE), read, budget);
    } else {
      assert a.rows[..|rows|] == rows;
    }
    StaleInMore(rows, a.rows, 0, current);
  }

  /** The first two phases leave the current month's row as it is. */
  lemma CurrentIsLeft(rows: Rows, now: int, current: int, pick: nat, read: int -> Reading, budget: nat, j: nat)
    requires Sound(rows, now) && now <= current && LegalPick(rows, pick) && AllFull(read)
    requires Backfill(rows, current, pick, read, budget).done && j < |Backfill(rows, current, pick, read, budget).rows|
    ensures var a := Backfill(rows, current, pick, read, budget);
            var b := FinalizeFrom(a.rows, 0, current, read, a.left).rows;
            && |b| == |a.rows| && b[j].month == a.rows[j].month
            && (b[j].month == current ==> j < |rows| && b[j] == rows[j] && rows[j].status.Draft?)
  {
    hide Sound;
    hide Backfill;
    hide FinalizeFrom;
    hide Costs;
    hide Itemizes;
    hide FirstQuantity;
    var a := Backfill(rows, current, pick, read, budget);
    BackfillNeeds(rows, current, pick, read, budget);
    FinalizeBills(a.rows, 0, current, read, a.left, j);
    if j < |rows| {
      assert a.rows[j] == a.rows[..|rows|][j];
      if rows[j].month == current { CurrentIsDraft(rows, now, current, j); }
    }
  }

  lemma CurrentIsDraft(rows: Rows, now: int, current: int, j: nat)
    requires Sound(rows, now) && now <= current && j < |rows| && rows[j].month == current
    ensures rows[j].status.Draft?
    ensures forall k :: 0 <= k < |rows| && rows[k].month == current ==> k == j
  {
    assert RowFits(rows[j], BaseMonths(rows), now);
    forall k | 0 <= k < |rows| && rows[k].month == current ensures k == j { assert RowFits(rows[k], BaseMonths(rows), now); }
  }

  /** The month has had its bill-shock mail. */
  predicate IsMarked(rows: Rows, m: int) { exists j :: 0 <= j < |rows| && rows[j].month == m && rows[j].notified }

  /** How many effects a batch needs. */
  function EffectsNeeded(rows: Rows, current: int, r: Reading, threshold: Option<int>): nat
    requires Full(r)
  {
    2 * Gap(rows, current) + 2 * StaleIn(rows, 0, |rows|, current) + (if HasMonth(rows, current) then 2 else 3)
    + if threshold.Some? && CostOf(r) > threshold.value && !IsMarked(rows, current) then 2 else 0
  }

  function CostOf(r: Reading): int
    requires Full(r)
  {
    var subtotal := Charges(r, None, |Prices.ITEM_KEYS|);
    subtotal + RoundDown(subtotal * r.taxRate)
  }

  lemma CostIsTheTotal(sum: Money, r: Reading)
    requires Full(r) && Costs(sum, r, None)
    ensures sum.total == CostOf(r)
  {
  }

  lemma FinalizeNeeds(rows: Rows, current: int, read: int -> Reading, budget: nat)
    requires AllFull(read)
    ensures var p := FinalizeFrom(rows, 0, current, read, budget);
            && (p.done <==> budget >= 2 * StaleIn(rows, 0, |rows|, current))
            && (p.done ==> p.left == budget - 2 * StaleIn(rows, 0, |rows|, current))
  {
    hide Settles;
    if rows != [] { FinalizeBills(rows, 0, current, read, budget, 0); }
  }

  lemma CurrentRowsAreLeft(rows: Rows, now: int, current: int, pick: nat, read: int -> Reading, budget: nat)
    requires Sound(rows, now) && now <= current && LegalPick(rows, pick) && AllFull(read)
    requires Backfill(rows, current, pick, read, budget).done
    ensures var a := Backfill(rows, current, pick, read, budget);
            var b := FinalizeFrom(a.rows, 0, current, read, a.left).rows;
            && (HasMonth(b, current) <==> HasMonth(rows, current))
            && forall j :: 0 <= j < |b| && b[j].month == current ==> j < |rows| && b[j] == rows[j]
  {
    hide Sound;
    hide Backfill;
    hide FinalizeFrom;
    hide StaleIn;
    var a := Backfill(rows, current, pick, read, budget);
    var b := FinalizeFrom(a.rows, 0, current, read, a.left).rows;
    BackfillNeeds(rows, current, pick, read, budget);
    FinalizeLength(a.rows, current, read, a.left);
    forall j | 0 <= j < |b| ensures b[j].month == a.rows[j].month && (b[j].month == current ==> j < |rows| && b[j] == rows[j]) {
      CurrentIsLeft(rows, now, current, pick, read, budget, j);
    }
    if HasMonth(rows, current) {
      var j :| 0 <= j < |rows| && rows[j].month == current;
      assert a.rows[j] == a.rows[..|rows|][j];
      assert b[j].month == current;
    }
  }

  /** Where the draft is, and whether it carries the mark. */
  lemma DraftCarriesTheMark(s: State, now: int, current: int, pick: nat, read: int -> Reading, budget: nat)
    requires Sound(s.rows, now) && now <= current && LegalPick(s.rows, pick) && AllFull(read)
    requires var a := Backfill(s.rows, current, pick, read, budget);
             a.done && var b := FinalizeFrom(a.rows, 0, current, read, a.left);
             b.done && OpenDraft(b.rows, current, b.left).done
    ensures var a := Backfill(s.rows, current, pick, read, budget);
            var b := FinalizeFrom(a.rows, 0, current, read, a.left);
            var c := OpenDraft(b.rows, current, b.left).rows;
            var i := FindMonth(c, current);
            i < |c| && c[i].status.Draft? && (c[i].notified <==> IsMarked(s.rows, current))
  {
    hide Sound;
    hide Backfill;
    hide FinalizeFrom;
    hide OpenDraft;
    LedgerNotices.BatchPlacesDraft(s, now, current, pick, read, budget);
    CurrentRowsAreLeft(s.rows, now, current, pick, read, budget);
    var a := Backfill(s.rows, current, pick, read, budget);
    var b := FinalizeFrom(a.rows, 0, current, read, a.left);
    OpenDraftSays(b.rows, current, b.left);
    var c := OpenDraft(b.rows, current, b.left).rows;
    var i := FindMonth(c, current);
    if HasMonth(b.rows, current) {
      assert c == b.rows && b.rows[i] == s.rows[i];
      CurrentIsDraft(s.rows, now, current, i);
    } else {
      assert i == |b.rows|;
    }
  }

  /**
   A batch ends well exactly when all its effects take place - two for every month to fill and every draft to settle, one
   for a draft to open, two to bill it, and two for a mail that is due - and then reports the cost of the current month.
   */
  lemma BatchEndsIff(s: State, now: int, current: int, pick: nat, read: int -> Reading, threshold: Option<int>, budget: nat)
    requires Sound(s.rows, now) && now <= current && LegalPick(s.rows, pick) && AllFull(read)
    ensures Batch(s, current, pick, read, threshold, budget).outcome
         == if budget >= EffectsNeeded(s.rows, current, read(current), threshold) then Ok(CostOf(read(current))) else CutShort
  {
    hide Sound;
    hide Backfill;
    hide FinalizeFrom;
    hide OpenDraft;
    hide Refresh;
    hide Gap;
    hide CostOf;
    hide Costs;
    hide Itemizes;
    hide StaleIn;
    hide IsMarked;
    var a := Backfill(s.rows, current, pick, read, budget);
    BackfillNeeds(s.rows, current, pick, read, budget);
    if a.done {
      FinalizeNeeds(a.rows, current, read, a.left);
      var b := FinalizeFrom(a.rows, 0, current, read, a.left);
      if b.done {
        CurrentRowsAreLeft(s.rows, now, current, pick, read, budget);
        OpenDraftSays(b.rows, current, b.left);
        var c := OpenDraft(b.rows, current, b.left);
        if c.done {
          DraftCarriesTheMark(s, now, current, pick, read, budget);
          var i := FindMonth(c.rows, current);
          RefreshBills(s.(rows := c.rows), i, read(current), threshold, c.left);
          var row := Refresh(s.(rows := c.rows), i, read(current), threshold, c.left).state.rows[i];
          if c.left > 0 { CostIsTheTotal(MoneyOf(row), read(current)); }
        }
      }
    }
  }

  // ----- Corrections ---------------------------------------------------------------------------------

  /**
   A correction, at every cut. It is refused exactly when the month is not final; it changes nothing exactly when the
   month already sums to the cost of the reading, with the devices the month carries; otherwise its first commit makes
   the month sum to that cost, and its second every item's quantity and amount, at the reading's unit prices.
   */
  lemma CorrectionBills(rows: Rows, m: int, r: Reading, budget: nat)
    requires Full(r)
    ensures var c, kept := Correct(rows, m, r, budget), Some(ItemQuantity(rows, m, "provisionable_devices"));
            if !HasFinalized(rows, m) then c == Correction(rows, NotFinalized)
            else if Costs(MonthMoney(rows, m), r, kept) then c == Correction(rows, NoChange)
            else if budget == 0 then c == Correction(rows, Interrupted)
            else
              && |c.rows| == |rows| + 1 && c.rows[..|rows|] == rows
              && c.rows[|rows|].month == m && c.rows[|rows|].status.Corrected? && !c.rows[|rows|].notified
              && Costs(MonthMoney(c.rows, m), r, kept)
              && (if budget == 1 then c.verdict.Interrupted? && c.rows[|rows|].lines == []
                  else c.verdict.Added? && forall k :: 0 <= k < |Prices.ITEM_KEYS| ==> CorrectsItem(c.rows, m, r, kept, k))
  {
    hide Costs;
    hide HasFinalized;
    hide Quote;
    hide CorrectsItem;
    var c, q := Correct(rows, m, r, budget), ItemQuantity(rows, m, PROVISIONABLE);
    QuoteCosts(r, q);
    CostsAreUnique(MonthMoney(rows, m), BillMoney(Quote(r, q)), r, Some(q));
    CorrectShape(rows, m, r, budget);
    if c.rows != rows {
      CorrectionReconciles(rows, m, r, budget);
      if c.verdict.Added? {
        forall k | 0 <= k < |Prices.ITEM_KEYS| ensures CorrectsItem(c.rows, m, r, Some(q), k) { AddedItem(rows, m, r, budget, k); }
      }
    }
  }

  /** The month's totals of item k are as the reading says, and the newest row shows its unit price. */
  ghost predicate CorrectsItem(rows: Rows, m: int, r: Reading, kept: Option<int>, k: nat)
    requires Full(r) && k < |Prices.ITEM_KEYS|
  {
    && ItemQuantity(rows, m, Prices.ITEM_KEYS[k]) == Count(r, kept, k)
    && ItemAmount(rows, m, Prices.ITEM_KEYS[k]) == Charge(r, kept, k)
    && rows != [] && |rows[|rows| - 1].lines| == |Prices.ITEM_KEYS|
    && rows[|rows| - 1].lines[k].key == Prices.ITEM_KEYS[k] && rows[|rows| - 1].lines[k].unitPrice == PriceAt(r, k)
  }

  lemma CostsAreUnique(a: Money, b: Money, r: Reading, kept: Option<int>)
    requires Full(r) && Costs(b, r, kept)
    ensures Costs(a, r, kept) <==> a == b
  {
  }

  lemma AddedItem(rows: Rows, m: int, r: Reading, budget: nat, k: nat)
    requires Full(r) && k < |Prices.ITEM_KEYS| && Correct(rows, m, r, budget).verdict.Added?
    ensures CorrectsItem(Correct(rows, m, r, budget).rows, m, r, Some(ItemQuantity(rows, m, PROVISIONABLE)), k)
  {
    hide Quote;
    CorrectShape(rows, m, r, budget);
    AddedCorrectionMatchesItems(rows, m, r, budget, k);
    QuoteCosts(r, ItemQuantity(rows, m, PROVISIONABLE));
  }

  /** A month that one row has settled needs no correction on the reading it was billed from. */
  lemma SettledNeedsNoCorrection(rows: Rows, j: nat, r: Reading, q: int, budget: nat)
    requires Full(r) && j < |rows| && rows[j].status.Finalized?
    requires Costs(MoneyOf(rows[j]), r, Some(q)) && Itemizes(rows[j].lines, r, Some(q))
    requires forall k :: 0 <= k < |rows| && k != j ==> rows[k].month != rows[j].month
    ensures Correct(rows, rows[j].month, r, budget) == Correction(rows, NoChange)
  {
    hide Costs;
    OnlyRow(rows, rows[j].month, j);
    DevicesKey();
    KeyedLookup(rows[j].lines, DEVICES);
    CorrectionBills(rows, rows[j].month, r, budget);
  }

  lemma {:induction false} OnlyRow(rows: Rows, m: int, j: int)
    requires j < |rows| && forall k :: 0 <= k < |rows| && k != j ==> rows[k].month != m
    requires 0 <= j ==> rows[j].month == m
    ensures MonthMoney(rows, m) == if 0 <= j then MoneyOf(rows[j]) else Money(0, 0, 0)
    ensures ItemQuantity(rows, m, PROVISIONABLE) == if 0 <= j then QuantityIn(rows[j].lines, PROVISIONABLE) else 0
  {
    if rows != [] {
      var n := |rows| - 1;
      OnlyRow(rows[..n], m, if j == n then -1 else j);
    }
  }
}
