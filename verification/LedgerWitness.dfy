/** Runs from the empty ledger in which a promise fails: the conditions in the other modules are not idle. */
module LedgerWitness {
  import opened Basics
  import opened Billing
  import opened Ledger
  import opened LedgerSound
  import opened LedgerMoney
  import opened LedgerRuns
  import opened LedgerCuts
  import opened LedgerNotices
  import Prices

  ghost predicate Reachable(s: State, now: int) {
    exists states: seq<State>, events: seq<Event>, clocks: seq<int> ::
      IsRun(states, events, clocks) && states[|states| - 1] == s && clocks[|clocks| - 1] == now
  }

  lemma StartsEmpty(now: int)
    ensures Reachable(State([], []), now)
  {
    assert IsRun([State([], [])], [], [now]);
  }

  lemma ReachableAfter(s: State, now: int, e: Event)
    requires Reachable(s, now) && Possible(s, now, e)
    ensures Reachable(After(s, e), Clock(now, e))
  {
    hide After;
    var states: seq<State>, events: seq<Event>, clocks: seq<int> :|
      IsRun(states, events, clocks) && states[|states| - 1] == s && clocks[|clocks| - 1] == now;
    assert IsRun(states + [After(s, e)], events + [e], clocks + [Clock(now, e)]);
  }

  // ----- A tenant with one priced item ---------------------------------------------------------------

  /** The base fee costs one yen apiece, everything else and the tax nothing. */
  function Sample(fee: nat, points: nat, devices: nat): Reading {
    Reading(seq(|Prices.ITEM_KEYS|, i requires 0 <= i < |Prices.ITEM_KEYS| =>
                UsageItem(Prices.ITEM_KEYS[i], if i == 0 then fee else if i == 1 then points else if i == DEVICES then devices else 0)),
            map[Prices.ITEM_KEYS[0] := SCALE], 0)
  }

  function Always(r: Reading): int -> Reading { _ => r }

  lemma LineCosts(fee: nat, points: nat, devices: nat, kept: int, i: nat)
    requires i < |Prices.ITEM_KEYS|
    ensures var b := Quote(Sample(fee, points, devices), kept);
            |b.lines| == |Prices.ITEM_KEYS| && b.lines[i].amount == if i == 0 then fee else 0
  {
    QuoteShape(Sample(fee, points, devices), kept);
    var r := Sample(fee, points, devices);
    DevicesKey();
    forall k | 0 <= k < DEVICES ensures r.usage[k].key != PROVISIONABLE { KeysDiffer(k, DEVICES); }
    WithQuantityAt(r.usage, DEVICES, PROVISIONABLE, kept);
    if i > 0 { KeysDiffer(0, i); }
  }

  lemma {:induction false} LinesCost(fee: nat, points: nat, devices: nat, kept: int, n: nat)
    requires n <= |Prices.ITEM_KEYS|
    ensures var b := Quote(Sample(fee, points, devices), kept);
            |b.lines| == |Prices.ITEM_KEYS| && SumAmounts(b.lines[..n]) == if n == 0 then 0 else fee
  {
    QuoteShape(Sample(fee, points, devices), kept);
    if n > 0 {
      LinesCost(fee, points, devices, kept, n - 1);
      LineCosts(fee, points, devices, kept, n - 1);
      var lines := Quote(Sample(fee, points, devices), kept).lines;
      assert lines[..n][..n - 1] == lines[..n - 1];
    }
  }

  /** Such a bill costs its fee, and shows the points and the devices it was given. */
  lemma SampleQuote(fee: nat, points: nat, devices: nat, kept: int)
    ensures Full(Sample(fee, points, devices))
    ensures var b := Quote(Sample(fee, points, devices), kept);
            && BillMoney(b) == Money(fee, 0, fee)
            && |b.lines| == |Prices.ITEM_KEYS| && Keyed(b.lines) && SumAmounts(b.lines) == fee
            && b.lines[1].quantity == points && FirstQuantity(b.lines, PROVISIONABLE) == kept
  {
    var r := Sample(fee, points, devices);
    var b := Quote(r, kept);
    QuoteShape(r, kept);
    LinesCost(fee, points, devices, kept, |Prices.ITEM_KEYS|);
    assert b.lines[..|Prices.ITEM_KEYS|] == b.lines;
    QuoteIsBalanced(r, kept);
    FirstIsOnly(b.lines);
  }

  lemma SampleIsQuote(fee: nat, points: nat, devices: nat)
    ensures var r := Sample(fee, points, devices); InvoiceFor(r.usage, r.prices, r.taxRate) == Quote(r, devices)
  {
    var r := Sample(fee, points, devices);
    DevicesKey();
    forall k | 0 <= k < DEVICES ensures r.usage[k].key != PROVISIONABLE { KeysDiffer(k, DEVICES); }
    WithQuantityAt(r.usage, DEVICES, PROVISIONABLE, devices);
    assert r.usage[DEVICES := UsageItem(PROVISIONABLE, devices)] == r.usage;
  }

  // ----- The first two batches -----------------------------------------------------------------------

  function SampleRow(m: int, status: Status, fee: nat, points: nat, devices: nat): Invoice {
    var b := Quote(Sample(fee, points, devices), devices);
    Priced(Blank(m, status), b).(lines := b.lines)
  }

  function FirstBatch(m: int, r: Reading, threshold: Option<int>, budget: nat): Event {
    BatchRun(m, 0, Always(r), threshold, budget)
  }

  /** The first batch bills a draft. */
  lemma AfterFirstBatch(m: int, fee: nat, points: nat, devices: nat)
    ensures After(State([], []), FirstBatch(m, Sample(fee, points, devices), None, 3)) == State([SampleRow(m, Draft, fee, points, devices)], [])
  {
    hide InvoiceFor;
    SampleIsQuote(fee, points, devices);
  }

  /** The second finalizes it, and is cut before it opens its own draft. */
  lemma AfterSecondBatch(m: int, fee: nat, points: nat, devices: nat)
    ensures var s := State([SampleRow(m, Draft, fee, points, devices)], []);
            After(s, FirstBatch(m + 1, Sample(fee, points, devices), None, 2)) == State([SampleRow(m, Finalized, fee, points, devices)], [])
  {
    hide Quote;
    hide FirstQuantity;
    SampleQuote(fee, points, devices, devices);
    var draft, fin, read := SampleRow(m, Draft, fee, points, devices), SampleRow(m, Finalized, fee, points, devices), Always(Sample(fee, points, devices));
    assert Backfill([draft], m + 1, 0, read, 2) == Phase([draft], 2, true);
    assert [draft][0 := fin] == [fin];
    assert FinalizeFrom([fin], 1, m + 1, read, 0) == Phase([fin], 0, true);
    assert FinalizeFrom([draft], 0, m + 1, read, 2) == Phase([fin], 0, true);
    assert FindMonth([fin], m + 1) == 1;
    assert OpenDraft([fin], m + 1, 0) == Phase([fin], 0, false);
  }

  /** So this ledger is reachable: one month, final. */
  lemma FinalMonthReachable(m: int, fee: nat, points: nat, devices: nat)
    ensures Reachable(State([SampleRow(m, Finalized, fee, points, devices)], []), m + 1)
  {
    hide After;
    SampleQuote(fee, points, devices, devices);
    var r := Sample(fee, points, devices);
    StartsEmpty(m);
    ReachableAfter(State([], []), m, FirstBatch(m, r, None, 3));
    AfterFirstBatch(m, fee, points, devices);
    ReachableAfter(State([SampleRow(m, Draft, fee, points, devices)], []), m, FirstBatch(m + 1, r, None, 2));
    AfterSecondBatch(m, fee, points, devices);
  }

  /** What this ledger says of the month. */
  lemma FinalMonth(m: int, fee: nat, points: nat, devices: nat)
    ensures var rows := [SampleRow(m, Finalized, fee, points, devices)];
            && HasFinalized(rows, m) && KeyedRows(rows) && BalancedRows(rows) && DeltasCarryNone(rows)
            && MonthMoney(rows, m) == Money(fee, 0, fee)
            && ItemQuantity(rows, m, Prices.ITEM_KEYS[1]) == points && ItemQuantity(rows, m, PROVISIONABLE) == devices
  {
    hide Quote;
    SampleQuote(fee, points, devices, devices);
    var row := SampleRow(m, Finalized, fee, points, devices);
    assert [row][0].status.Finalized?;
    KeyedLookup(row.lines, 1);
    FirstIsOnly(row.lines);
    MoneyAppend([], row, m);
    ItemAppend([], row, m, Prices.ITEM_KEYS[1]);
    ItemAppend([], row, m, PROVISIONABLE);
    assert [] + [row] == [row];
  }

  // ----- What fails ----------------------------------------------------------------------------------

  /** A month is corrected, the correction is cut between its commits, and the next one reaches its end. */
  lemma CutCorrectionUnbalancesTheNext(m: int) returns (s: State, now: int, e: Event)
    ensures Reachable(s, now) && Possible(s, now, e) && Uncut(s, e)
    ensures |After(s, e).rows| == |s.rows| + 1 && !Balanced(After(s, e).rows[|s.rows|])
  {
    hide Quote;
    hide Whole;
    hide Batch;
    var fin := SampleRow(m, Finalized, 1, 0, 0);
    FinalMonthReachable(m, 1, 0, 0);
    FinalMonth(m, 1, 0, 0);
    var cut := CorrectionRun(m, Sample(2, 0, 0), 1);
    SampleQuote(2, 0, 0, 0);
    ReachableAfter(State([fin], []), m + 1, cut);
    ItemsMakeSubtotal([fin], m);
    CorrectionWhole([fin], m, Sample(2, 0, 0), 1, m);
    CorrectionReconciles([fin], m, Sample(2, 0, 0), 1);
    CorrectionKeepsDevices([fin], m, Sample(2, 0, 0), 1, m);
    s, now := After(State([fin], []), cut), m + 1;
    e := CorrectionRun(m, Sample(3, 0, 0), 2);
    SampleQuote(3, 0, 0, 0);
    CorrectShape(s.rows, m, Sample(3, 0, 0), 2);
    AddedRowBalancesIff(s.rows, m, Sample(3, 0, 0), 2);
  }

  /** The final month with seven devices, corrected once. */
  lemma CorrectedReachable(m: int) returns (s: State)
    ensures Reachable(s, m + 1) && |s.rows| == 2 && KeyedRows(s.rows) && DeltasCarryNone(s.rows)
    ensures s.rows[0] == SampleRow(m, Finalized, 1, 0, 7) && s.rows[1].month == m && s.rows[1].status.Corrected?
    ensures ItemQuantity(s.rows, m, PROVISIONABLE) == 7
  {
    hide Quote;
    hide QuantityIn;
    var fin, r := SampleRow(m, Finalized, 1, 0, 7), Sample(2, 0, 7);
    FinalMonthReachable(m, 1, 0, 7);
    FinalMonth(m, 1, 0, 7);
    SampleQuote(2, 0, 7, 7);
    ReachableAfter(State([fin], []), m + 1, CorrectionRun(m, r, 2));
    CorrectShape([fin], m, r, 2);
    CorrectionKeepsDevices([fin], m, r, 2, m);
    CorrectionDeltas([fin], m, r, 2);
    s := After(State([fin], []), CorrectionRun(m, r, 2));
  }

  /** With budget to spare, a batch that finds one month missing adds it, opens the draft and ends. */
  lemma OneMonthMissing(rows: Rows, notices: seq<int>, m: int, pick: nat, r: Reading)
    requires rows != [] && Latest(rows) == m && LegalPick(rows, pick)
    requires forall i :: 0 <= i < |rows| ==> rows[i].month == m && !rows[i].status.Draft?
    ensures var added := Backfill(rows, m + 2, pick, Always(r), 10).rows;
            && |added| == |rows| + 1 && added[|rows|].month == m + 1 && added[|rows|].status.Finalized?
            && added[|rows|].lines == Quote(r, FirstQuantity(rows[pick].lines, PROVISIONABLE)).lines
    ensures !Batch(State(rows, notices), m + 2, pick, Always(r), None, 10).outcome.CutShort?
  {
    hide Quote;
    hide InvoiceFor;
    hide FirstQuantity;
    var a := Backfill(rows, m + 2, pick, Always(r), 10);
    var kept := FirstQuantity(rows[pick].lines, PROVISIONABLE);
    var full := Priced(Blank(m + 1, Finalized), Quote(r, kept)).(lines := Quote(r, kept).lines);
    assert BackfillFrom(rows + [full], m + 2, m + 2, kept, Always(r), 8) == Phase(rows + [full], 8, true);
    assert a == Phase(rows + [full], 8, true);
    NothingStale(a.rows, 0, m + 2, Always(r), 8);
    OpenDraftFinds(a.rows, m + 2, 8);
    assert a.left == 8 && FindMonth(a.rows, m + 2) == |a.rows|;
  }

  /**
   A month with seven devices is final, the draft of the next month was never opened, and a correction has added a
   row. The next batch picks that row, and the month it makes up for carries no devices.
   */
  lemma BackfilledMonthLosesItsDevices(m: int) returns (s: State, now: int, e: Event)
    ensures Reachable(s, now) && Possible(s, now, e) && e.BatchRun? && Uncut(s, e)
    ensures ItemQuantity(s.rows, m, PROVISIONABLE) == 7
    ensures var rows', k := After(s, e).rows, |s.rows|;
            k < |rows'| && rows'[k].month == m + 1 && rows'[k].lines != [] && QuantityIn(rows'[k].lines, PROVISIONABLE) == 0
  {
    hide Quote;
    hide Batch;
    hide QuantityIn;
    hide FirstQuantity;
    hide BackfillFrom;
    s := CorrectedReachable(m);
    now := m + 1;
    e := BatchRun(m + 2, 1, Always(Sample(1, 0, 7)), None, 10);
    FirstIsOnly(s.rows[1].lines);
    SampleQuote(1, 0, 7, 0);
    OneMonthMissing(s.rows, s.notices, m, 1, Sample(1, 0, 7));
    BatchSpares(s, m + 2, 1, e.read, None, 10);
    QuoteIsBalanced(Sample(1, 0, 7), 0);
    SampleQuote(1, 0, 7, 7);
  }

  /** Unpriced usage went from five to eight; before and after the correction the month says five. */
  lemma FreeUsageStaysWrong(m: int, budget: nat) returns (s: State, now: int, e: Event)
    ensures Reachable(s, now) && Possible(s, now, e) && e.CorrectionRun? && e.month == m && e.budget == budget
    ensures |FreshBill(s.rows, m, e.reading).lines| == |Prices.ITEM_KEYS| && FreshBill(s.rows, m, e.reading).lines[1].quantity == 8
    ensures ItemQuantity(s.rows, m, Prices.ITEM_KEYS[1]) == 5 && ItemQuantity(After(s, e).rows, m, Prices.ITEM_KEYS[1]) == 5
  {
    hide Quote;
    hide QuantityIn;
    FinalMonthReachable(m, 1, 5, 0);
    FinalMonth(m, 1, 5, 0);
    SampleQuote(1, 8, 0, 0);
    s, now := State([SampleRow(m, Finalized, 1, 5, 0)], []), m + 1;
    e := CorrectionRun(m, Sample(1, 8, 0), budget);
  }

  /** The first batch of a month is cut between mail and mark; the second mails again. */
  lemma MonthMailedTwice(m: int) returns (s: State)
    ensures Reachable(s, m) && s.notices == [m, m]
  {
    hide Quote;
    hide InvoiceFor;
    var r := Sample(1, 0, 0);
    SampleIsQuote(1, 0, 0);
    SampleQuote(1, 0, 0, 0);
    var first, second := FirstBatch(m, r, Some(0), 4), FirstBatch(m, r, Some(0), 4);
    StartsEmpty(m);
    ReachableAfter(State([], []), m, first);
    var row := SampleRow(m, Draft, 1, 0, 0);
    assert After(State([], []), first) == State([row], [m]);
    ReachableAfter(State([row], [m]), m, second);
    BatchAgainRefreshes(State([row], [m]), m, 0, Always(r), Some(0), 4);
    s := After(State([row], [m]), second);
  }
}
