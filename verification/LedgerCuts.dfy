/** What cuts leave alone: settled rows, the sums of months that are through, and which row a backfill copies. */
module LedgerCuts {
  import opened Basics
  import opened Billing
  import opened Ledger
  import opened LedgerSound
  import opened LedgerMoney
  import opened LedgerRuns
  import Prices

  // ----- Settled rows are never touched --------------------------------------------------------------

  /** Rows that are no drafts stay as they are, rows keep month and kind, and base rows are added for new months only. */
  ghost predicate Spares(rows: Rows, rows': Rows) {
    && |rows| <= |rows'|
    && (forall i :: 0 <= i < |rows| ==> rows'[i].month == rows[i].month && IsBase(rows'[i]) == IsBase(rows[i])
                                        && (!rows[i].status.Draft? ==> rows'[i] == rows[i]))
    && (forall i :: |rows| <= i < |rows'| ==> IsBase(rows'[i]) && !HasMonth(rows, rows'[i].month))
  }

  lemma SparesOn(a: Rows, b: Rows, c: Rows)
    requires Spares(a, b) && Spares(b, c)
    ensures Spares(a, c)
  {
    forall m | HasMonth(a, m) ensures HasMonth(b, m) {
      var j :| 0 <= j < |a| && a[j].month == m;
      assert b[j].month == m;
    }
    forall i | |a| <= i < |b| ensures c[i].month == b[i].month {}
  }

  lemma {:induction false} BackfillSpares(rows: Rows, next: int, current: int, kept: int, read: int -> Reading, budget: nat)
    requires forall i :: 0 <= i < |rows| ==> rows[i].month < next
    ensures Spares(rows, BackfillFrom(rows, next, current, kept, read, budget).rows)
    decreases current - next
  {
    hide Quote;
    if next < current && budget > 1 {
      var bill := Quote(read(next), kept);
      var full := Priced(Blank(next, Finalized), bill).(lines := bill.lines);
      BackfillSpares(rows + [full], next + 1, current, kept, read, budget - 2);
      SparesOn(rows, rows + [full], BackfillFrom(rows + [full], next + 1, current, kept, read, budget - 2).rows);
    }
  }

  lemma {:induction false} FinalizeSpares(rows: Rows, i: nat, current: int, read: int -> Reading, budget: nat)
    requires i <= |rows|
    ensures Spares(rows, FinalizeFrom(rows, i, current, read, budget).rows)
    decreases |rows| - i
  {
    hide Quote;
    if i == |rows| {
    } else if !IsStale(rows[i], current) {
      FinalizeSpares(rows, i + 1, current, read, budget);
    } else if budget > 1 {
      var bill := Quote(read(rows[i].month), FirstQuantity(rows[i].lines, PROVISIONABLE));
      var full := Priced(rows[i], bill).(status := Finalized, lines := bill.lines);
      FinalizeSpares(rows[i := full], i + 1, current, read, budget - 2);
      SparesOn(rows, rows[i := full], FinalizeFrom(rows[i := full], i + 1, current, read, budget - 2).rows);
    }
  }

  lemma OpenDraftSpares(rows: Rows, current: int, budget: nat)
    ensures Spares(rows, OpenDraft(rows, current, budget).rows)
  {
  }

  lemma RefreshSpares(s: State, i: nat, reading: Reading, threshold: Option<int>, budget: nat)
    requires i < |s.rows|
    ensures Spares(s.rows, Refresh(s, i, reading, threshold, budget).state.rows)
  {
    hide InvoiceFor;
  }

  /** A batch, cut anywhere, touches no row that is finalized or corrected, and adds rows only for months that had none. */
  lemma BatchSpares(s: State, current: int, pick: nat, read: int -> Reading, threshold: Option<int>, budget: nat)
    requires LegalPick(s.rows, pick)
    ensures Spares(s.rows, Batch(s, current, pick, read, threshold, budget).state.rows)
    ensures Spares(Backfill(s.rows, current, pick, read, budget).rows, Batch(s, current, pick, read, threshold, budget).state.rows)
  {
    hide Spares;
    hide Refresh;
    hide FinalizeFrom;
    hide OpenDraft;
    hide BackfillFrom;
    hide FirstQuantity;
    var a := Backfill(s.rows, current, pick, read, budget);
    SparesItself(a.rows);
    if s.rows != [] {
      LatestIsMaximum(s.rows);
      BackfillSpares(s.rows, Latest(s.rows) + 1, current, FirstQuantity(s.rows[pick].lines, PROVISIONABLE), read, budget);
    }
    if a.done {
      FinalizeSpares(a.rows, 0, current, read, a.left);
      var b := FinalizeFrom(a.rows, 0, current, read, a.left);
      SparesOn(s.rows, a.rows, b.rows);
      if b.done {
        OpenDraftSpares(b.rows, current, b.left);
        var c := OpenDraft(b.rows, current, b.left);
        SparesOn(s.rows, b.rows, c.rows);
        SparesOn(a.rows, b.rows, c.rows);
        if c.done {
          OpenDraftFinds(b.rows, current, b.left);
          var i := FindMonth(c.rows, current);
          RefreshSpares(s.(rows := c.rows), i, read(current), threshold, c.left);
          SparesOn(s.rows, c.rows, Refresh(s.(rows := c.rows), i, read(current), threshold, c.left).state.rows);
          SparesOn(a.rows, c.rows, Refresh(s.(rows := c.rows), i, read(current), threshold, c.left).state.rows);
        }
      }
    }
  }

  lemma SparesItself(rows: Rows)
    ensures Spares(rows, rows)
  {
  }

  // ----- The sums of a month that is through ---------------------------------------------------------

  /** The rows of the month are the same ones. */
  ghost predicate SameRows(rows: Rows, rows': Rows, m: int) {
    && |rows| <= |rows'|
    && (forall i :: 0 <= i < |rows| ==> rows'[i].month == rows[i].month && (rows[i].month == m ==> rows'[i] == rows[i]))
    && (forall i :: |rows| <= i < |rows'| ==> rows'[i].month != m)
  }

  lemma {:induction false} SameRowsSameSums(rows: Rows, rows': Rows, m: int, key: string)
    requires SameRows(rows, rows', m)
    ensures MonthMoney(rows', m) == MonthMoney(rows, m) && ItemAmount(rows', m, key) == ItemAmount(rows, m, key)
    decreases |rows'|
  {
    if rows' != [] {
      var n := |rows'| - 1;
      if n >= |rows| {
        SameRowsSameSums(rows, rows'[..n], m, key);
      } else {
        SameRowsSameSums(rows[..n], rows'[..n], m, key);
      }
    }
  }

  lemma {:induction false} SameItemsTotal(rows: Rows, rows': Rows, m: int, n: nat)
    requires SameRows(rows, rows', m) && n <= |Prices.ITEM_KEYS|
    ensures ItemsTotal(rows', m, n) == ItemsTotal(rows, m, n)
  {
    if n > 0 {
      SameItemsTotal(rows, rows', m, n - 1);
      SameRowsSameSums(rows, rows', m, Prices.ITEM_KEYS[n - 1]);
    }
  }

  /** A month with a finalized row has no draft, so a batch leaves its rows alone. */
  lemma FinalizedMonthIsSpared(rows: Rows, rows': Rows, now: int, m: int)
    requires Sound(rows, now) && HasFinalized(rows, m) && Spares(rows, rows')
    ensures SameRows(rows, rows', m) && HasFinalized(rows', m)
  {
    SoundIsConsecutive(rows, now);
    var f :| 0 <= f < |rows| && rows[f].month == m && rows[f].status.Finalized?;
    forall i | 0 <= i < |rows| && rows[i].month == m ensures rows'[i] == rows[i] {
      if rows[i].status.Draft? {
        if i < f { BaseMonthsDiffer(rows, i, f); } else { BaseMonthsDiffer(rows, f, i); }
      }
    }
    assert rows'[f] == rows[f];
    forall i | |rows| <= i < |rows'| ensures rows'[i].month != m {
      assert HasMonth(rows, m);
    }
  }

  /** The correction gets to its first commit: the month is final and its money differs from the fresh bill's. */
  predicate AddsRow(s: State, e: Event, m: int) {
    e.CorrectionRun? && e.month == m && e.budget > 0 && BillMoney(FreshBill(s.rows, m, e.reading)) != MonthMoney(s.rows, m)
  }

  /**
   For a month that is final, exactly what each operation, cut or not, does to the agreement of its items with its
   subtotal: a correction that adds its row restores it when it reaches the second commit, and sets it by chance when
   it is cut before; everything else leaves it as it is.
   */
  lemma StepWholeIff(s: State, now: int, e: Event, m: int)
    requires Sound(s.rows, now) && KeyedRows(s.rows) && Possible(s, now, e) && HasFinalized(s.rows, m)
    ensures HasFinalized(After(s, e).rows, m)
    ensures Whole(After(s, e).rows, m) <==>
              if AddsRow(s, e, m) then e.budget >= 2 || ItemsTotal(s.rows, m, |Prices.ITEM_KEYS|) == FreshBill(s.rows, m, e.reading).subtotal
              else Whole(s.rows, m)
  {
    hide Batch;
    hide Sound;
    match e
    case BatchRun(current, pick, read, threshold, budget) =>
      BatchSpares(s, current, pick, read, threshold, budget);
      FinalizedMonthIsSpared(s.rows, After(s, e).rows, now, m);
      SameItemsTotal(s.rows, After(s, e).rows, m, |Prices.ITEM_KEYS|);
      SameRowsSameSums(s.rows, After(s, e).rows, m, PROVISIONABLE);
    case CorrectionRun(month, reading, budget) =>
      CorrectionWhole(s.rows, month, reading, budget, m);
  }

  lemma CorrectionWhole(rows: Rows, month: int, reading: Reading, budget: nat, m: int)
    requires KeyedRows(rows) && Full(reading) && HasFinalized(rows, m)
    ensures var c := Correct(rows, month, reading, budget);
            && HasFinalized(c.rows, m)
            && (Whole(c.rows, m) <==>
                  if month == m && budget > 0 && BillMoney(FreshBill(rows, m, reading)) != MonthMoney(rows, m)
                  then budget >= 2 || ItemsTotal(rows, m, |Prices.ITEM_KEYS|) == FreshBill(rows, m, reading).subtotal
                  else Whole(rows, m))
  {
    hide Quote;
    var c := Correct(rows, month, reading, budget);
    CorrectShape(rows, month, reading, budget);
    var f :| 0 <= f < |rows| && rows[f].month == m && rows[f].status.Finalized?;
    assert c.rows[f] == rows[f];
    if c.rows != rows {
      var r := c.rows[|rows|];
      MoneyAppend(rows, r, m);
      ItemsTotalAppend(rows, r, m, |Prices.ITEM_KEYS|);
      if c.verdict.Added? { AddedCorrectionMakesWhole(rows, month, reading, budget); }
    }
  }

  /** A correction of the month is cut between its two commits. */
  predicate CutBetween(s: State, e: Event, m: int) { AddsRow(s, e, m) && e.budget == 1 }

  /** Once a completed correction has added its row, the month stays whole until a correction of it is cut between its commits. */
  lemma {:induction false} WholeUntilCut(states: seq<State>, events: seq<Event>, clocks: seq<int>, i: nat, j: nat, m: int)
    requires IsRun(states, events, clocks) && i < j < |states|
    requires HasFinalized(states[i].rows, m) && AddsRow(states[i], events[i], m)
    requires forall k :: i <= k < j ==> !CutBetween(states[k], events[k], m)
    ensures HasFinalized(states[j].rows, m) && Whole(states[j].rows, m)
  {
    hide After;
    hide Whole;
    hide Sound;
    hide HasFinalized;
    EveryRunIsSound(states, events, clocks, j - 1);
    assert Possible(states[j - 1], clocks[j - 1], events[j - 1]) && !CutBetween(states[j - 1], events[j - 1], m);
    if i < j - 1 { WholeUntilCut(states, events, clocks, i, j - 1, m); }
    StepWholeIff(states[j - 1], clocks[j - 1], events[j - 1], m);
  }

  /** The operation sets the sums of the month: it is a correction of it that gets as far as its first commit, if it needs one. */
  predicate SetsSums(e: Event, m: int) { e.CorrectionRun? && e.month == m && e.budget > 0 }

  /** Every other operation, cut or not, leaves the sums of a final month alone. */
  lemma OthersKeepSums(s: State, now: int, e: Event, m: int)
    requires Sound(s.rows, now) && Possible(s, now, e) && HasFinalized(s.rows, m) && !SetsSums(e, m)
    ensures HasFinalized(After(s, e).rows, m) && MonthMoney(After(s, e).rows, m) == MonthMoney(s.rows, m)
  {
    hide Batch;
    hide Sound;
    match e
    case BatchRun(current, pick, read, threshold, budget) =>
      BatchSpares(s, current, pick, read, threshold, budget);
      FinalizedMonthIsSpared(s.rows, After(s, e).rows, now, m);
      SameRowsSameSums(s.rows, After(s, e).rows, m, PROVISIONABLE);
    case CorrectionRun(month, reading, budget) =>
      CorrectionKeepsFinalized(s.rows, month, reading, budget, m);
      if budget > 0 && HasFinalized(s.rows, month) { CorrectionReconciles(s.rows, month, reading, budget); }
  }

  lemma CorrectionKeepsFinalized(rows: Rows, month: int, reading: Reading, budget: nat, m: int)
    requires Full(reading) && HasFinalized(rows, m)
    ensures HasFinalized(Correct(rows, month, reading, budget).rows, m)
  {
    CorrectShape(rows, month, reading, budget);
    var f :| 0 <= f < |rows| && rows[f].month == m && rows[f].status.Finalized?;
    assert Correct(rows, month, reading, budget).rows[f] == rows[f];
  }

  /**
   In any run, whatever batches and corrections of other months come in between and wherever they are cut: a month sums
   to what the last correction of it that got as far as its first commit would bill.
   */
  lemma {:induction false} LastCorrectionDecidesTheRun(states: seq<State>, events: seq<Event>, clocks: seq<int>, i: nat, j: nat, m: int)
    requires IsRun(states, events, clocks) && i < j < |states|
    requires HasFinalized(states[i].rows, m) && SetsSums(events[i], m)
    requires forall k :: i < k < j ==> !SetsSums(events[k], m)
    ensures HasFinalized(states[j].rows, m)
    ensures MonthMoney(states[j].rows, m) == BillMoney(FreshBill(states[i].rows, m, events[i].reading))
  {
    hide After;
    hide Sound;
    hide HasFinalized;
    hide FreshBill;
    EveryRunIsSound(states, events, clocks, j - 1);
    assert Possible(states[j - 1], clocks[j - 1], events[j - 1]);
    if i < j - 1 {
      LastCorrectionDecidesTheRun(states, events, clocks, i, j - 1, m);
      OthersKeepSums(states[j - 1], clocks[j - 1], events[j - 1], m);
    } else {
      CorrectionSetsSums(states[i], clocks[i], events[i], m);
    }
  }

  lemma CorrectionSetsSums(s: State, now: int, e: Event, m: int)
    requires Possible(s, now, e) && HasFinalized(s.rows, m) && SetsSums(e, m)
    ensures HasFinalized(After(s, e).rows, m) && MonthMoney(After(s, e).rows, m) == BillMoney(FreshBill(s.rows, m, e.reading))
  {
    CorrectionKeepsFinalized(s.rows, m, e.reading, e.budget, m);
    CorrectionReconciles(s.rows, m, e.reading, e.budget);
  }

  // ----- Which row a backfill copies -----------------------------------------------------------------

  /** Corrections carry no devices of their own. */
  ghost predicate DeltasCarryNone(rows: Rows) {
    forall i :: 0 <= i < |rows| && !IsBase(rows[i]) ==> QuantityIn(rows[i].lines, PROVISIONABLE) == 0
  }

  lemma StepDeltas(s: State, now: int, e: Event)
    requires DeltasCarryNone(s.rows) && KeyedRows(s.rows) && Possible(s, now, e)
    ensures DeltasCarryNone(After(s, e).rows)
  {
    hide Batch;
    hide QuantityIn;
    match e
    case BatchRun(current, pick, read, threshold, budget) =>
      BatchSpares(s, current, pick, read, threshold, budget);
    case CorrectionRun(m, reading, budget) =>
      CorrectionDeltas(s.rows, m, reading, budget);
  }

  lemma CorrectionDeltas(rows: Rows, m: int, reading: Reading, budget: nat)
    requires DeltasCarryNone(rows) && Full(reading)
    ensures DeltasCarryNone(Correct(rows, m, reading, budget).rows)
  {
    hide QuantityIn;
    var c := Correct(rows, m, reading, budget);
    CorrectShape(rows, m, reading, budget);
    if c.rows != rows {
      QuoteShape(reading, ItemQuantity(rows, m, PROVISIONABLE));
      DevicesKey();
      KeyedLookup(c.rows[|rows|].lines, DEVICES);
    }
  }

  lemma {:induction false} EveryRunDeltasCarryNone(states: seq<State>, events: seq<Event>, clocks: seq<int>, i: nat)
    requires IsRun(states, events, clocks) && i < |states|
    ensures DeltasCarryNone(states[i].rows)
  {
    hide Sound;
    hide After;
    if i > 0 {
      EveryRunDeltasCarryNone(states, events, clocks, i - 1);
      EveryRunIsSound(states, events, clocks, i - 1);
      assert Possible(states[i - 1], clocks[i - 1], events[i - 1]);
      StepDeltas(states[i - 1], clocks[i - 1], events[i - 1]);
    }
  }

  /** With one base row in the month, its devices are the month's. */
  lemma {:induction false} BaseCarriesAll(rows: Rows, m: int, base: int)
    requires DeltasCarryNone(rows) && base < |rows|
    requires forall j :: 0 <= j < |rows| && j != base && IsBase(rows[j]) ==> rows[j].month != m
    ensures ItemQuantity(rows, m, PROVISIONABLE)
         == if 0 <= base && rows[base].month == m then QuantityIn(rows[base].lines, PROVISIONABLE) else 0
  {
    if rows != [] {
      var n := |rows| - 1;
      BaseCarriesAll(rows[..n], m, if base == n then -1 else base);
    }
  }

  /** The row picked shows the month's devices exactly when it is the month's base row, or there are none. */
  lemma PickShowsTheMonthIff(rows: Rows, now: int, pick: nat)
    requires Sound(rows, now) && KeyedRows(rows) && DeltasCarryNone(rows) && rows != [] && LegalPick(rows, pick)
    ensures var devices := ItemQuantity(rows, Latest(rows), PROVISIONABLE);
            FirstQuantity(rows[pick].lines, PROVISIONABLE) == devices <==> (IsBase(rows[pick]) || devices == 0)
  {
    FirstIsOnly(rows[pick].lines);
    SoundIsConsecutive(rows, now);
    if IsBase(rows[pick]) {
      forall j | 0 <= j < |rows| && j != pick && IsBase(rows[j]) ensures rows[j].month != Latest(rows) {
        if j < pick { BaseMonthsDiffer(rows, j, pick); } else { BaseMonthsDiffer(rows, pick, j); }
      }
      BaseCarriesAll(rows, Latest(rows), pick);
    }
  }

  /**
   In any run, cut or not: a month added by a backfill carries the number of devices of the latest month on record
   exactly when there are none, or the query for that month returned its base row and not a correction, and the backfill
   was not cut before the lines of the month it added.
   */
  lemma BackfillCarriesTheMonthIff(states: seq<State>, events: seq<Event>, clocks: seq<int>, i: nat, k: nat)
    requires IsRun(states, events, clocks) && i < |events| && events[i].BatchRun?
    requires var rows, e := states[i].rows, events[i];
             && rows != [] && LegalPick(rows, e.pick) && AllFull(e.read)
             && var added := Backfill(rows, e.current, e.pick, e.read, e.budget).rows;
                |rows| <= k < |added|
    ensures var rows, e := states[i].rows, events[i];
            var devices := ItemQuantity(rows, Latest(rows), PROVISIONABLE);
            QuantityIn(Backfill(rows, e.current, e.pick, e.read, e.budget).rows[k].lines, PROVISIONABLE) == devices
            <==> (devices == 0 || (IsBase(rows[e.pick]) && e.budget >= 2 * (k + 1 - |rows|)))
  {
    hide Sound;
    hide BackfillFrom;
    hide ItemQuantity;
    hide QuantityIn;
    hide FirstQuantity;
    var rows, e := states[i].rows, events[i];
    EveryRunIsSound(states, events, clocks, i);
    EveryRunDeltasCarryNone(states, events, clocks, i);
    PickShowsTheMonthIff(rows, clocks[i], e.pick);
    BackfillCarriesKept(rows, Latest(rows) + 1, e.current, FirstQuantity(rows[e.pick].lines, PROVISIONABLE), e.read, e.budget, k);
  }
}
