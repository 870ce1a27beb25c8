/** Whole runs of the ledger: batches and corrections in any order, each run to its end or cut at any point. */
module LedgerRuns {
  import opened Basics
  import opened Billing
  import opened Ledger
  import opened LedgerSound
  import opened LedgerMoney
  import Prices

  // ----- What the batch does to line items -----------------------------------------------------------

  lemma {:induction false} ItemUpdate(rows: Rows, i: nat, r: Invoice, m: int, key: string)
    requires i < |rows| && r.month == rows[i].month
    ensures ItemQuantity(rows[i := r], m, key)
         == ItemQuantity(rows, m, key) + if r.month == m then QuantityIn(r.lines, key) - QuantityIn(rows[i].lines, key) else 0
  {
    var n := |rows| - 1;
    if i < n {
      ItemUpdate(rows[..n], i, r, m, key);
      assert rows[i := r][..n] == rows[..n][i := r];
    } else {
      assert rows[i := r][..n] == rows[..n];
    }
  }

  /** The bill of the current month keeps the aggregated keys, and adds up. */
  lemma BillIsBalanced(usage: seq<UsageItem>, prices: map<string, int>, rate: int)
    requires |usage| == |Prices.ITEM_KEYS| && forall i :: 0 <= i < |usage| ==> usage[i].key == Prices.ITEM_KEYS[i]
    ensures var b := InvoiceFor(usage, prices, rate); Keyed(b.lines) && SumAmounts(b.lines) == b.subtotal
  {
  }

  lemma QuoteIsBalanced(r: Reading, q: int)
    requires Full(r)
    ensures Keyed(Quote(r, q).lines) && SumAmounts(Quote(r, q).lines) == Quote(r, q).subtotal
    ensures QuantityIn(Quote(r, q).lines, PROVISIONABLE) == q
  {
    QuoteShape(r, q);
    DevicesKey();
    KeyedLookup(Quote(r, q).lines, DEVICES);
  }

  ghost predicate AllFull(read: int -> Reading) { forall m :: Full(read(m)) }

  /** Each row is as it was before, or written anew with lines that add up to its subtotal. */
  ghost predicate Rewritten(rows: Rows, rows': Rows) {
    |rows| <= |rows'| && forall i :: 0 <= i < |rows'| ==> Balanced(rows'[i]) || (i < |rows| && rows'[i] == rows[i])
  }

  /** What a phase does to line items: keyed lines, the devices of month m, and - if it finished - rows that balance. */
  ghost predicate LinesKept(rows: Rows, p: Phase, m: int) {
    && KeyedRows(p.rows)
    && ItemQuantity(p.rows, m, PROVISIONABLE) == ItemQuantity(rows, m, PROVISIONABLE)
    && (p.done ==> Rewritten(rows, p.rows))
  }

  lemma {:induction false} BackfillLines(rows: Rows, next: int, current: int, kept: int, read: int -> Reading, budget: nat, m: int)
    requires KeyedRows(rows) && AllFull(read) && m < next
    ensures LinesKept(rows, BackfillFrom(rows, next, current, kept, read, budget), m)
    decreases current - next
  {
    hide Quote;
    hide ItemQuantity;
    hide QuantityIn;
    hide SumAmounts;
    if next < current && budget > 0 {
      var bill := Quote(read(next), kept);
      QuoteIsBalanced(read(next), kept);
      var bare := Priced(Blank(next, Finalized), bill);
      ItemAppend(rows, bare, m, PROVISIONABLE);
      if budget > 1 {
        var full := bare.(lines := bill.lines);
        ItemAppend(rows, full, m, PROVISIONABLE);
        BackfillLines(rows + [full], next + 1, current, kept, read, budget - 2, m);
      }
    }
  }

  lemma {:induction false} FinalizeLines(rows: Rows, i: nat, current: int, read: int -> Reading, budget: nat, m: int)
    requires KeyedRows(rows) && AllFull(read) && i <= |rows|
    ensures LinesKept(rows, FinalizeFrom(rows, i, current, read, budget), m)
    decreases |rows| - i
  {
    hide Quote;
    hide ItemQuantity;
    hide QuantityIn;
    hide FirstQuantity;
    hide SumAmounts;
    if i == |rows| {
    } else if !IsStale(rows[i], current) {
      FinalizeLines(rows, i + 1, current, read, budget, m);
    } else if budget > 0 {
      var kept := FirstQuantity(rows[i].lines, PROVISIONABLE);
      FirstIsOnly(rows[i].lines);
      var bill := Quote(read(rows[i].month), kept);
      QuoteIsBalanced(read(rows[i].month), kept);
      var settled := Priced(rows[i], bill).(status := Finalized);
      ItemUpdate(rows, i, settled, m, PROVISIONABLE);
      if budget > 1 {
        var full := settled.(lines := bill.lines);
        ItemUpdate(rows, i, full, m, PROVISIONABLE);
        FinalizeLines(rows[i := full], i + 1, current, read, budget - 2, m);
      }
    }
  }

  lemma OpenDraftLines(rows: Rows, current: int, budget: nat, m: int)
    requires KeyedRows(rows)
    ensures LinesKept(rows, OpenDraft(rows, current, budget), m)
  {
    ItemAppend(rows, Blank(current, Draft), m, PROVISIONABLE);
  }

  lemma RefreshLines(s: State, i: nat, reading: Reading, threshold: Option<int>, budget: nat, m: int)
    requires KeyedRows(s.rows) && Full(reading) && i < |s.rows| && m != s.rows[i].month
    ensures var r := Refresh(s, i, reading, threshold, budget);
            LinesKept(s.rows, Phase(r.state.rows, 0, !r.outcome.CutShort?), m)
  {
    hide ItemQuantity;
    hide QuantityIn;
    hide SumAmounts;
    hide InvoiceFor;
    if s.rows[i].status.Draft? && budget > 0 {
      var bill := InvoiceFor(reading.usage, reading.prices, reading.taxRate);
      BillIsBalanced(reading.usage, reading.prices, reading.taxRate);
      var priced := Priced(s.rows[i], bill);
      var full := priced.(lines := bill.lines);
      ItemUpdate(s.rows, i, priced, m, PROVISIONABLE);
      ItemUpdate(s.rows, i, full, m, PROVISIONABLE);
      ItemUpdate(s.rows, i, full.(notified := true), m, PROVISIONABLE);
      assert s.rows[i := full][i := full.(notified := true)] == s.rows[i := full.(notified := true)];
    }
  }

  /**
   One batch, whole or cut: no month before the current one that was already invoiced changes its number of
   provisionable devices; and a batch that is not cut leaves every row's lines adding up to its subtotal.
   */
  lemma BatchLines(s: State, current: int, pick: nat, read: int -> Reading, threshold: Option<int>, budget: nat, m: int)
    requires KeyedRows(s.rows) && AllFull(read) && LegalPick(s.rows, pick)
    requires m < current && (s.rows != [] ==> m <= Latest(s.rows))
    requires s.rows == [] ==> m < current
    ensures var r := Batch(s, current, pick, read, threshold, budget);
            LinesKept(s.rows, Phase(r.state.rows, 0, !r.outcome.CutShort?), m)
  {
    hide Refresh;
    hide ItemQuantity;
    var a := Backfill(s.rows, current, pick, read, budget);
    if s.rows != [] {
      BackfillLines(s.rows, Latest(s.rows) + 1, current, FirstQuantity(s.rows[pick].lines, PROVISIONABLE), read, budget, m);
    }
    if a.done {
      FinalizeLines(a.rows, 0, current, read, a.left, m);
      var b := FinalizeFrom(a.rows, 0, current, read, a.left);
      if b.done {
        OpenDraftLines(b.rows, current, b.left, m);
        OpenDraftFinds(b.rows, current, b.left);
        var c := OpenDraft(b.rows, current, b.left);
        if c.done {
          RefreshLines(s.(rows := c.rows), FindMonth(c.rows, current), read(current), threshold, c.left, m);
        }
      }
    }
  }

  // ----- Runs ----------------------------------------------------------------------------------------

  datatype Event =
    | BatchRun(current: int, pick: nat, read: int -> Reading, threshold: Option<int>, budget: nat)
    | CorrectionRun(month: int, reading: Reading, budget: nat)

  /** The event can happen in this state: the clock has not gone back, and the database picked a row of the latest month. */
  ghost predicate Possible(s: State, now: int, e: Event) {
    match e
    case BatchRun(current, pick, read, _, _) => now <= current && LegalPick(s.rows, pick) && AllFull(read)
    case CorrectionRun(_, reading, _) => Full(reading)
  }

  function Clock(now: int, e: Event): int {
    if e.BatchRun? then e.current else now
  }

  function After(s: State, e: Event): State
    requires e.BatchRun? ==> LegalPick(s.rows, e.pick)
  {
    match e
    case BatchRun(current, pick, read, threshold, budget) => Batch(s, current, pick, read, threshold, budget).state
    case CorrectionRun(m, reading, budget) => s.(rows := Correct(s.rows, m, reading, budget).rows)
  }

  /** Ran to its end, whatever the result. */
  predicate Uncut(s: State, e: Event)
    requires e.BatchRun? ==> LegalPick(s.rows, e.pick)
  {
    match e
    case BatchRun(current, pick, read, threshold, budget) =>
      !Batch(s, current, pick, read, threshold, budget).outcome.CutShort?
    case CorrectionRun(m, reading, budget) => !Correct(s.rows, m, reading, budget).verdict.Interrupted?
  }

  /** A run is the sequence of states it passes through, with the event and clock of each step. */
  ghost predicate IsRun(states: seq<State>, events: seq<Event>, clocks: seq<int>) {
    && |states| == |events| + 1 && |clocks| == |states|
    && states[0] == State([], [])
    && forall i :: 0 <= i < |events| ==>
         && Possible(states[i], clocks[i], events[i])
         && states[i + 1] == After(states[i], events[i])
         && clocks[i + 1] == Clock(clocks[i], events[i])
  }

  lemma StepKeepsSound(s: State, now: int, e: Event)
    requires Sound(s.rows, now) && KeyedRows(s.rows) && Possible(s, now, e)
    ensures Sound(After(s, e).rows, Clock(now, e)) && KeyedRows(After(s, e).rows)
  {
    hide Sound;
    hide Batch;
    hide Correct;
    match e
    case BatchRun(current, pick, read, threshold, budget) =>
      BatchKeepsSound(s, now, current, pick, read, threshold, budget);
      BatchLines(s, current, pick, read, threshold, budget, Floor(s.rows, current));
    case CorrectionRun(m, reading, budget) =>
      CorrectKeepsSound(s.rows, now, m, reading, budget);
      CorrectionKeepsDevices(s.rows, m, reading, budget, m);
  }

  /** Some month no later than any row and before the current one. */
  function Floor(rows: Rows, current: int): int {
    if rows == [] || current <= Latest(rows) then current - 1 else Latest(rows)
  }

  /**
   In every state of every run, with operations cut at any commit: the invoiced months are gap-free with one
   base row each, there is at most one draft, and total is subtotal plus tax on every row.
   */
  lemma {:induction false} EveryRunIsSound(states: seq<State>, events: seq<Event>, clocks: seq<int>, i: nat)
    requires IsRun(states, events, clocks) && i < |states|
    ensures Sound(states[i].rows, clocks[i]) && KeyedRows(states[i].rows)
  {
    if i == 0 {
      assert BaseMonths([]) == [];
    } else {
      EveryRunIsSound(states, events, clocks, i - 1);
      assert Possible(states[i - 1], clocks[i - 1], events[i - 1]);
      StepKeepsSound(states[i - 1], clocks[i - 1], events[i - 1]);
    }
  }

  /** The same, read row by row: no month between the first and the latest is missing, and none is billed twice. */
  lemma EveryRunIsGapFree(states: seq<State>, events: seq<Event>, clocks: seq<int>, i: nat, m: int)
    requires IsRun(states, events, clocks) && i < |states| && states[i].rows != []
    ensures var rows := states[i].rows;
            && BaseMonths(rows) != []
            && BaseCount(rows, m) == (if BaseMonths(rows)[0] <= m <= Latest(rows) then 1 else 0)
            && OneDraftAtMost(rows)
  {
    EveryRunIsSound(states, events, clocks, i);
    SoundMeansGapFree(states[i].rows, clocks[i], m);
  }

  /** A batch that is not cut never meets a current month that is not a draft, and leaves exactly that one draft. */
  lemma EveryUncutBatchBillsTheCurrentMonth(states: seq<State>, events: seq<Event>, clocks: seq<int>, i: nat)
    requires IsRun(states, events, clocks) && i < |events| && events[i].BatchRun? && LegalPick(states[i].rows, events[i].pick)
    requires Uncut(states[i], events[i])
    ensures Batch(states[i], events[i].current, events[i].pick, events[i].read, events[i].threshold, events[i].budget).outcome.Ok?
    ensures OnlyDraftIs(states[i + 1].rows, events[i].current)
  {
    EveryRunIsSound(states, events, clocks, i);
    var e := events[i];
    assert Possible(states[i], clocks[i], e);
    BatchKeepsSound(states[i], clocks[i], e.current, e.pick, e.read, e.threshold, e.budget);
  }

  /** Every operation of the run reached its end. */
  ghost predicate UncutRun(states: seq<State>, events: seq<Event>, clocks: seq<int>)
    requires IsRun(states, events, clocks)
  {
    forall i :: 0 <= i < |events| ==> Uncut(states[i], events[i])
  }

  /**
   Row by row, for any operation that reaches its end, whatever was cut before it: each row it adds or changes is
   balanced - except that the row a correction adds is balanced exactly when the month's items agreed with its
   subtotal before.
   */
  lemma WrittenRowsBalanceIff(states: seq<State>, events: seq<Event>, clocks: seq<int>, i: nat, k: nat)
    requires IsRun(states, events, clocks) && i < |events| && Possible(states[i], clocks[i], events[i]) && Uncut(states[i], events[i])
    requires k < |states[i + 1].rows| && (k < |states[i].rows| ==> states[i + 1].rows[k] != states[i].rows[k])
    ensures Balanced(states[i + 1].rows[k]) <==> (events[i].CorrectionRun? ==> Whole(states[i].rows, events[i].month))
  {
    hide After;
    hide Sound;
    EveryRunIsSound(states, events, clocks, i);
    StepWritesBalanced(states[i], clocks[i], events[i], k);
  }

  lemma StepWritesBalanced(s: State, now: int, e: Event, k: nat)
    requires KeyedRows(s.rows) && Possible(s, now, e) && Uncut(s, e)
    requires k < |After(s, e).rows| && (k < |s.rows| ==> After(s, e).rows[k] != s.rows[k])
    ensures Balanced(After(s, e).rows[k]) <==> (e.CorrectionRun? ==> Whole(s.rows, e.month))
  {
    hide Batch;
    match e
    case BatchRun(current, pick, read, threshold, budget) =>
      BatchLines(s, current, pick, read, threshold, budget, Floor(s.rows, current));
    case CorrectionRun(m, reading, budget) =>
      CorrectShape(s.rows, m, reading, budget);
      AddedRowBalancesIff(s.rows, m, reading, budget);
  }

  /** So in runs without cuts every row is balanced, delta rows included. */
  lemma {:induction false} UncutRunsBalance(states: seq<State>, events: seq<Event>, clocks: seq<int>, i: nat)
    requires IsRun(states, events, clocks) && i < |states| && UncutRun(states, events, clocks)
    ensures BalancedRows(states[i].rows)
  {
    if i > 0 {
      var s, e := states[i - 1], events[i - 1];
      UncutRunsBalance(states, events, clocks, i - 1);
      EveryRunIsSound(states, events, clocks, i - 1);
      assert Possible(s, clocks[i - 1], e);
      assert Uncut(s, e);
      StepBalances(s, clocks[i - 1], e);
    }
  }

  lemma StepBalances(s: State, now: int, e: Event)
    requires KeyedRows(s.rows) && BalancedRows(s.rows) && Possible(s, now, e) && Uncut(s, e)
    ensures BalancedRows(After(s, e).rows)
  {
    hide Batch;
    match e
    case BatchRun(current, pick, read, threshold, budget) =>
      BatchLines(s, current, pick, read, threshold, budget, Floor(s.rows, current));
    case CorrectionRun(m, reading, budget) =>
      CorrectionBalances(s.rows, m, reading, budget);
  }

  // ----- Devices are carried over --------------------------------------------------------------------

  /** Rows are only ever added at the end, and keep their month, their kind and their bill-shock mark. */
  ghost predicate Grown(rows: Rows, rows': Rows) {
    && |rows| <= |rows'|
    && (forall i :: 0 <= i < |rows| ==> rows'[i].month == rows[i].month && IsBase(rows'[i]) == IsBase(rows[i])
                                        && rows'[i].notified == rows[i].notified)
    && (forall i :: |rows| <= i < |rows'| ==> !rows'[i].notified)
  }

  lemma {:induction false} BackfillGrows(rows: Rows, next: int, current: int, kept: int, read: int -> Reading, budget: nat)
    ensures var rows' := BackfillFrom(rows, next, current, kept, read, budget).rows;
            Grown(rows, rows') && forall i :: |rows| <= i < |rows'| ==> rows'[i].month >= next
    decreases current - next
  {
    hide Quote;
    if next < current && budget > 0 {
      var bill := Quote(read(next), kept);
      var full := Priced(Blank(next, Finalized), bill).(lines := bill.lines);
      if budget > 1 {
        BackfillGrows(rows + [full], next + 1, current, kept, read, budget - 2);
        var rows' := BackfillFrom(rows + [full], next + 1, current, kept, read, budget - 2).rows;
        assert (rows + [full])[|rows|] == full;
        assert forall i :: 0 <= i < |rows| ==> (rows + [full])[i] == rows[i];
      }
    }
  }

  lemma {:induction false} FinalizeGrows(rows: Rows, i: nat, current: int, read: int -> Reading, budget: nat)
    requires i <= |rows|
    ensures var rows' := FinalizeFrom(rows, i, current, read, budget).rows; Grown(rows, rows') && |rows'| == |rows|
    decreases |rows| - i
  {
    hide Quote;
    if i == |rows| {
    } else if !IsStale(rows[i], current) {
      FinalizeGrows(rows, i + 1, current, read, budget);
    } else if budget > 1 {
      var bill := Quote(read(rows[i].month), FirstQuantity(rows[i].lines, PROVISIONABLE));
      var full := Priced(rows[i], bill).(status := Finalized, lines := bill.lines);
      FinalizeGrows(rows[i := full], i + 1, current, read, budget - 2);
    }
  }

  lemma RefreshFrame(s: State, i: nat, reading: Reading, threshold: Option<int>, budget: nat)
    requires i < |s.rows|
    ensures var rows' := Refresh(s, i, reading, threshold, budget).state.rows;
            && |rows'| == |s.rows| && rows'[i].month == s.rows[i].month && rows'[i].status == s.rows[i].status
            && forall j :: 0 <= j < |rows'| && j != i ==> rows'[j] == s.rows[j]
  {
  }

  lemma GrownKeepsMonth(rows: Rows, rows': Rows, m: int)
    requires Grown(rows, rows') && HasMonth(rows, m)
    ensures HasMonth(rows', m)
  {
    var i :| 0 <= i < |rows| && rows[i].month == m;
    assert rows'[i].month == m;
  }

  lemma RefreshKeepsMonth(s: State, i: nat, reading: Reading, threshold: Option<int>, budget: nat, m: int)
    requires i < |s.rows| && HasMonth(s.rows, m)
    ensures HasMonth(Refresh(s, i, reading, threshold, budget).state.rows, m)
  {
    RefreshFrame(s, i, reading, threshold, budget);
    var j :| 0 <= j < |s.rows| && s.rows[j].month == m;
    assert Refresh(s, i, reading, threshold, budget).state.rows[j].month == m;
  }

  lemma OpenDraftKeepsMonth(rows: Rows, current: int, budget: nat, m: int)
    requires HasMonth(rows, m)
    ensures HasMonth(OpenDraft(rows, current, budget).rows, m)
  {
    GrownKeepsMonth(rows, OpenDraft(rows, current, budget).rows, m);
  }

  lemma BatchKeepsMonth(s: State, current: int, pick: nat, read: int -> Reading, threshold: Option<int>, budget: nat, m: int)
    requires LegalPick(s.rows, pick) && HasMonth(s.rows, m)
    ensures HasMonth(Batch(s, current, pick, read, threshold, budget).state.rows, m)
  {
    assert s.rows != [];
    hide Refresh;
    hide HasMonth;
    hide FinalizeFrom;
    hide OpenDraft;
    hide FirstQuantity;
    hide Grown;
    var next, kept := Latest(s.rows) + 1, FirstQuantity(s.rows[pick].lines, PROVISIONABLE);
    var a := Backfill(s.rows, current, pick, read, budget);
    BackfillGrows(s.rows, next, current, kept, read, budget);
    GrownKeepsMonth(s.rows, a.rows, m);
    if a.done {
      var b := FinalizeFrom(a.rows, 0, current, read, a.left);
      FinalizeGrows(a.rows, 0, current, read, a.left);
      GrownKeepsMonth(a.rows, b.rows, m);
      if b.done {
        var c := OpenDraft(b.rows, current, b.left);
        OpenDraftKeepsMonth(b.rows, current, b.left, m);
        if c.done {
          OpenDraftFinds(b.rows, current, b.left);
          var i := FindMonth(c.rows, current);
          RefreshKeepsMonth(s.(rows := c.rows), i, read(current), threshold, c.left, m);
        }
      }
    }
  }

  lemma StepKeepsDevices(s: State, now: int, e: Event, m: int)
    requires KeyedRows(s.rows) && Possible(s, now, e)
    requires HasMonth(s.rows, m) && m < Clock(now, e)
    ensures ItemQuantity(After(s, e).rows, m, PROVISIONABLE) == ItemQuantity(s.rows, m, PROVISIONABLE)
    ensures HasMonth(After(s, e).rows, m)
  {
    hide Batch;
    hide ItemQuantity;
    match e
    case BatchRun(current, pick, read, threshold, budget) =>
      LatestIsMaximum(s.rows);
      BatchLines(s, current, pick, read, threshold, budget, m);
      BatchKeepsMonth(s, current, pick, read, threshold, budget, m);
    case CorrectionRun(month, reading, budget) =>
      CorrectionKeepsDevices(s.rows, month, reading, budget, m);
      CorrectShape(s.rows, month, reading, budget);
      GrownKeepsMonth(s.rows, After(s, e).rows, m);
  }

  lemma {:induction false} ClockNeverGoesBack(states: seq<State>, events: seq<Event>, clocks: seq<int>, i: nat, j: nat)
    requires IsRun(states, events, clocks) && i <= j < |clocks|
    ensures clocks[i] <= clocks[j]
  {
    if i < j {
      ClockNeverGoesBack(states, events, clocks, i, j - 1);
      assert Possible(states[j - 1], clocks[j - 1], events[j - 1]);
    }
  }

  /**
   From the last state in which a month was current (or any later one) on, through finalization and any number
   of corrections, each of them whole or cut at any commit, the provisionable devices summed over the month's
   rows never change.
   */
  lemma {:induction false} DevicesNeverChange(states: seq<State>, events: seq<Event>, clocks: seq<int>, i: nat, j: nat, m: int)
    requires IsRun(states, events, clocks) && i <= j < |states|
    requires HasMonth(states[i].rows, m) && (i < |events| ==> m < clocks[i + 1])
    ensures ItemQuantity(states[j].rows, m, PROVISIONABLE) == ItemQuantity(states[i].rows, m, PROVISIONABLE)
    ensures HasMonth(states[j].rows, m)
  {
    hide Sound;
    hide ItemQuantity;
    hide After;
    hide KeyedRows;
    hide HasMonth;
    if i < j {
      DevicesNeverChange(states, events, clocks, i, j - 1, m);
      EveryRunIsSound(states, events, clocks, j - 1);
      ClockNeverGoesBack(states, events, clocks, i + 1, j);
      assert Possible(states[j - 1], clocks[j - 1], events[j - 1]);
      StepKeepsDevices(states[j - 1], clocks[j - 1], events[j - 1], m);
    }
  }

  /** Every month a backfill adds carries the one number of devices it was given, unless it is cut before its lines. */
  lemma {:induction false} BackfillCarriesKept(
    rows: Rows, next: int, current: int, kept: int, read: int -> Reading, budget: nat, i: nat)
    requires AllFull(read)
    requires |rows| <= i < |BackfillFrom(rows, next, current, kept, read, budget).rows|
    ensures QuantityIn(BackfillFrom(rows, next, current, kept, read, budget).rows[i].lines, PROVISIONABLE)
         == if budget >= 2 * (i + 1 - |rows|) then kept else 0
    decreases current - next
  {
    hide Quote;
    if next < current && budget > 1 {
      var bill := Quote(read(next), kept);
      QuoteIsBalanced(read(next), kept);
      var full := Priced(Blank(next, Finalized), bill).(lines := bill.lines);
      if i > |rows| {
        BackfillCarriesKept(rows + [full], next + 1, current, kept, read, budget - 2, i);
      } else {
        BackfillKeepsRow(rows + [full], next + 1, current, kept, read, budget - 2, i);
      }
    }
  }

  lemma {:induction false} BackfillKeepsRow(
    rows: Rows, next: int, current: int, kept: int, read: int -> Reading, budget: nat, i: nat)
    requires i < |rows|
    ensures |BackfillFrom(rows, next, current, kept, read, budget).rows| >= |rows|
    ensures BackfillFrom(rows, next, current, kept, read, budget).rows[i] == rows[i]
    decreases current - next
  {
    hide Quote;
    if next < current && budget > 1 {
      var bill := Quote(read(next), kept);
      BackfillKeepsRow(rows + [Priced(Blank(next, Finalized), bill).(lines := bill.lines)], next + 1, current, kept, read, budget - 2, i);
    }
  }
}
