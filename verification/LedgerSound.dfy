/**
 What every commit of every ledger operation keeps: a gap-free run of months with one base row each, and at
 most one draft. Nothing here needs an operation to finish.
 */
module LedgerSound {
  import opened Basics
  import opened Billing
  import opened Ledger

  predicate IsBase(r: Invoice) { !r.status.Corrected? }

  /** The months of the draft and finalized rows, in table order. */
  function BaseMonths(rows: Rows): seq<int> {
    if rows == [] then []
    else
      var last := rows[|rows| - 1];
      BaseMonths(rows[..|rows| - 1]) + if IsBase(last) then [last.month] else []
  }

  ghost predicate Consecutive(ms: seq<int>) {
    forall i :: 0 <= i < |ms| ==> ms[i] == ms[0] + i
  }

  ghost predicate OneDraftAtMost(rows: Rows) {
    forall i, j :: 0 <= i < j < |rows| ==> !(rows[i].status.Draft? && rows[j].status.Draft?)
  }

  /** One row, given the months that have a base row and the current month of the latest batch. */
  predicate RowFits(r: Invoice, months: seq<int>, now: int) {
    && r.month <= now
    && (r.month == now ==> r.status.Draft?)
    && (r.status.Corrected? ==> r.month in months)
    && r.total == r.subtotal + r.tax
  }

  /** The invariant; `now` is the current month of the latest batch. */
  ghost predicate Sound(rows: Rows, now: int) {
    && Consecutive(BaseMonths(rows))
    && OneDraftAtMost(rows)
    && forall i :: 0 <= i < |rows| ==> RowFits(rows[i], BaseMonths(rows), now)
  }

  lemma BaseAppend(rows: Rows, r: Invoice)
    ensures BaseMonths(rows + [r]) == BaseMonths(rows) + if IsBase(r) then [r.month] else []
  {
    assert (rows + [r])[..|rows|] == rows;
  }

  lemma {:induction false} BaseUpdate(rows: Rows, i: nat, r: Invoice)
    requires i < |rows| && r.month == rows[i].month && IsBase(r) == IsBase(rows[i])
    ensures BaseMonths(rows[i := r]) == BaseMonths(rows)
  {
    var n := |rows| - 1;
    if i < n {
      BaseUpdate(rows[..n], i, r);
      assert rows[i := r][..n] == rows[..n][i := r];
    } else {
      assert rows[i := r][..n] == rows[..n];
    }
  }

  lemma {:induction false} BaseMember(rows: Rows, i: nat)
    requires i < |rows| && IsBase(rows[i])
    ensures rows[i].month in BaseMonths(rows)
  {
    var n := |rows| - 1;
    if i < n {
      BaseMember(rows[..n], i);
    } else {
      assert BaseMonths(rows)[|BaseMonths(rows)| - 1] == rows[i].month;
    }
  }

  lemma {:induction false} BaseMonthsDiffer(rows: Rows, i: nat, j: nat)
    requires Consecutive(BaseMonths(rows)) && i < j < |rows| && IsBase(rows[i]) && IsBase(rows[j])
    ensures rows[i].month != rows[j].month
  {
    var n := |rows| - 1;
    assert Consecutive(BaseMonths(rows[..n])) by {
      assert forall k :: 0 <= k < |BaseMonths(rows[..n])| ==> BaseMonths(rows[..n])[k] == BaseMonths(rows)[k];
    }
    if j < n {
      BaseMonthsDiffer(rows[..n], i, j);
    } else {
      BaseMember(rows[..n], i);
      var k :| 0 <= k < |BaseMonths(rows[..n])| && BaseMonths(rows[..n])[k] == rows[i].month;
      assert BaseMonths(rows)[k] == rows[i].month;
      assert BaseMonths(rows)[|BaseMonths(rows[..n])|] == rows[j].month;
    }
  }

  lemma SoundIsConsecutive(rows: Rows, now: int)
    requires Sound(rows, now)
    ensures Consecutive(BaseMonths(rows))
  {
  }

  /** In a sound table the latest month is that of the last base row. */
  lemma LatestIsLastBase(rows: Rows, now: int)
    requires Sound(rows, now) && rows != []
    ensures BaseMonths(rows) != []
    ensures Latest(rows) == BaseMonths(rows)[|BaseMonths(rows)| - 1]
  {
    LatestIsMaximum(rows);
    var i :| 0 <= i < |rows| && rows[i].month == Latest(rows);
    if IsBase(rows[i]) { BaseMember(rows, i); }
    var ms := BaseMonths(rows);
    var k :| 0 <= k < |ms| && ms[k] == Latest(rows);
    BaseHasRow(rows, |ms| - 1);
  }

  lemma {:induction false} BaseHasRow(rows: Rows, k: nat)
    requires k < |BaseMonths(rows)|
    ensures exists i :: 0 <= i < |rows| && IsBase(rows[i]) && rows[i].month == BaseMonths(rows)[k]
  {
    var n := |rows| - 1;
    var prefix := BaseMonths(rows[..n]);
    if k < |prefix| {
      BaseHasRow(rows[..n], k);
      var i :| 0 <= i < n && IsBase(rows[..n][i]) && rows[..n][i].month == prefix[k];
      assert rows[i].month == BaseMonths(rows)[k];
    } else {
      assert rows[n].month == BaseMonths(rows)[k];
    }
  }

  // ----- One commit at a time ------------------------------------------------------------------------

  lemma ConsecutiveAppend(ms: seq<int>, m: int)
    requires Consecutive(ms) && (ms != [] ==> m == ms[|ms| - 1] + 1)
    ensures Consecutive(ms + [m])
  {
  }

  lemma DraftAppend(rows: Rows, r: Invoice)
    requires OneDraftAtMost(rows)
    requires r.status.Draft? ==> forall i :: 0 <= i < |rows| ==> !rows[i].status.Draft?
    ensures OneDraftAtMost(rows + [r])
  {
  }

  lemma FitAppend(rows: Rows, r: Invoice, months: seq<int>, months': seq<int>, now: int)
    requires forall i :: 0 <= i < |rows| ==> RowFits(rows[i], months, now)
    requires forall m :: m in months ==> m in months'
    requires RowFits(r, months', now)
    ensures forall i :: 0 <= i < |rows + [r]| ==> RowFits((rows + [r])[i], months', now)
  {
  }

  lemma AppendKeepsSound(rows: Rows, r: Invoice, now: int)
    requires Sound(rows, now) && IsBase(r) && r.month <= now && r.total == r.subtotal + r.tax
    requires rows != [] ==> r.month == Latest(rows) + 1
    requires r.month == now ==> r.status.Draft?
    requires r.status.Draft? ==> forall i :: 0 <= i < |rows| ==> !rows[i].status.Draft?
    ensures Sound(rows + [r], now)
    ensures Latest(rows + [r]) == r.month
  {
    BaseAppend(rows, r);
    if rows != [] { LatestIsLastBase(rows, now); }
    LatestOfAppend(rows, r);
    ConsecutiveAppend(BaseMonths(rows), r.month);
    DraftAppend(rows, r);
    FitAppend(rows, r, BaseMonths(rows), BaseMonths(rows + [r]), now);
  }

  lemma LatestOfAppend(rows: Rows, r: Invoice)
    requires rows != [] ==> Latest(rows) <= r.month
    ensures Latest(rows + [r]) == r.month
  {
    assert (rows + [r])[..|rows|] == rows;
  }

  lemma UpdateKeepsSound(rows: Rows, i: nat, r: Invoice, now: int)
    requires Sound(rows, now) && i < |rows| && r.month == rows[i].month && IsBase(r) && IsBase(rows[i])
    requires r.total == r.subtotal + r.tax
    requires r.month == now ==> r.status.Draft?
    requires r.status.Draft? ==> rows[i].status.Draft?
    ensures Sound(rows[i := r], now)
    ensures BaseMonths(rows[i := r]) == BaseMonths(rows)
  {
    BaseUpdate(rows, i, r);
  }

  lemma CorrectionKeepsSound(rows: Rows, r: Invoice, now: int)
    requires Sound(rows, now) && r.status.Corrected? && r.total == r.subtotal + r.tax
    requires HasFinalized(rows, r.month)
    ensures Sound(rows + [r], now)
  {
    BaseAppend(rows, r);
    var i :| 0 <= i < |rows| && rows[i].month == r.month && rows[i].status.Finalized?;
    BaseMember(rows, i);
  }

  // ----- The phases of the batch ---------------------------------------------------------------------

  lemma {:induction false} BackfillFromKeepsSound(rows: Rows, current: int, kept: int, read: int -> Reading, budget: nat)
    requires Sound(rows, current) && rows != []
    ensures var p := BackfillFrom(rows, Latest(rows) + 1, current, kept, read, budget);
            && Sound(p.rows, current) && p.rows != []
            && (p.done ==> Latest(p.rows) + 1 >= current)
    decreases current - Latest(rows)
  {
    hide Sound;
    hide Latest;
    hide BaseMonths;
    hide Quote;
    var next := Latest(rows) + 1;
    if next < current && budget > 0 {
      var bill := Quote(read(next), kept);
      QuoteTotal(read(next), kept);
      var bare := Priced(Blank(next, Finalized), bill);
      AppendKeepsSound(rows, bare, current);
      if budget > 1 {
        var full := bare.(lines := bill.lines);
        AppendKeepsSound(rows, full, current);
        BackfillFromKeepsSound(rows + [full], current, kept, read, budget - 2);
      }
    }
  }

  lemma QuoteTotal(r: Reading, provisionable: int)
    ensures Quote(r, provisionable).total == Quote(r, provisionable).subtotal + Quote(r, provisionable).tax
  {
  }

  ghost predicate NoStale(rows: Rows, upTo: nat, current: int)
    requires upTo <= |rows|
  {
    forall j :: 0 <= j < upTo ==> !IsStale(rows[j], current)
  }

  lemma {:induction false} FinalizeKeepsSound(rows: Rows, i: nat, current: int, read: int -> Reading, budget: nat)
    requires Sound(rows, current) && i <= |rows| && NoStale(rows, i, current)
    ensures var p := FinalizeFrom(rows, i, current, read, budget);
            && Sound(p.rows, current) && |p.rows| == |rows|
            && BaseMonths(p.rows) == BaseMonths(rows)
            && (forall j :: 0 <= j < |rows| ==> p.rows[j].month == rows[j].month && p.rows[j].notified == rows[j].notified
                                                && (!IsStale(rows[j], current) ==> p.rows[j] == rows[j]))
            && (p.done ==> NoStale(p.rows, |p.rows|, current))
    decreases |rows| - i
  {
    hide Sound;
    hide BaseMonths;
    if i == |rows| {
    } else if !IsStale(rows[i], current) {
      FinalizeKeepsSound(rows, i + 1, current, read, budget);
    } else if budget > 0 {
      var bill := Quote(read(rows[i].month), FirstQuantity(rows[i].lines, PROVISIONABLE));
      var settled := Priced(rows[i], bill).(status := Finalized);
      UpdateKeepsSound(rows, i, settled, current);
      if budget > 1 {
        var full := settled.(lines := bill.lines);
        UpdateKeepsSound(rows, i, full, current);
        FinalizeKeepsSound(rows[i := full], i + 1, current, read, budget - 2);
      }
    }
  }

  lemma OpenDraftKeepsSound(rows: Rows, current: int, budget: nat)
    requires Sound(rows, current) && NoStale(rows, |rows|, current)
    requires rows != [] ==> Latest(rows) + 1 >= current
    ensures var p := OpenDraft(rows, current, budget);
            && Sound(p.rows, current) && rows <= p.rows
            && (p.done ==> FindMonth(p.rows, current) < |p.rows| && p.rows[FindMonth(p.rows, current)].status.Draft?)
            && (p.rows != rows ==> p.rows == rows + [Blank(current, Draft)] && FindMonth(rows, current) == |rows|)
  {
    var f := FindMonth(rows, current);
    OpenDraftFinds(rows, current, budget);
    if f == |rows| {
      if rows != [] {
        LatestIsMaximum(rows);
        var i :| 0 <= i < |rows| && rows[i].month == Latest(rows);
      }
      forall j | 0 <= j < |rows|
        ensures !rows[j].status.Draft?
      {
        assert rows[j].month != current;
      }
      AppendKeepsSound(rows, Blank(current, Draft), current);
    }
  }

  lemma RefreshKeepsSound(s: State, i: nat, reading: Reading, threshold: Option<int>, budget: nat, now: int)
    requires Sound(s.rows, now) && i < |s.rows|
    ensures var r := Refresh(s, i, reading, threshold, budget);
            && Sound(r.state.rows, now) && |r.state.rows| == |s.rows|
            && BaseMonths(r.state.rows) == BaseMonths(s.rows)
            && (forall j :: 0 <= j < |s.rows| && j != i ==> r.state.rows[j] == s.rows[j])
            && r.state.rows[i].month == s.rows[i].month && r.state.rows[i].status == s.rows[i].status
            && (r.outcome.SkippedNotDraft? <==> !s.rows[i].status.Draft?)
  {
    hide Sound;
    hide BaseMonths;
    hide LinesFor;
    hide SumAmounts;
    assert IsBase(s.rows[i]) <== s.rows[i].status.Draft?;
    if s.rows[i].status.Draft? && budget > 0 {
      var bill := InvoiceFor(reading.usage, reading.prices, reading.taxRate);
      var priced := Priced(s.rows[i], bill);
      UpdateKeepsSound(s.rows, i, priced, now);
      if budget > 1 {
        var full := priced.(lines := bill.lines);
        UpdateKeepsSound(s.rows, i, full, now);
        UpdateKeepsSound(s.rows[i := full], i, full.(notified := true), now);
        assert s.rows[i := full][i := full.(notified := true)] == s.rows[i := full.(notified := true)];
      }
    }
  }

  /** The table is not empty, its latest month is the given one, and that month's row is the only draft. */
  ghost predicate OnlyDraftIs(rows: Rows, current: int) {
    && rows != [] && Latest(rows) == current
    && forall i :: 0 <= i < |rows| ==> (rows[i].status.Draft? <==> rows[i].month == current)
  }

  lemma SoundLater(rows: Rows, now: int, current: int)
    requires Sound(rows, now) && now <= current
    ensures Sound(rows, current)
  {
  }

  /**
   One batch, whole or cut at any commit: the ledger stays sound, it is never told that the current month is
   not a draft, and a batch that runs to its end leaves the current month as the one and only draft, last in line.
   */
  lemma BatchKeepsSound(s: State, now: int, current: int, pick: nat, read: int -> Reading, threshold: Option<int>, budget: nat)
    requires Sound(s.rows, now) && now <= current && LegalPick(s.rows, pick)
    ensures var r := Batch(s, current, pick, read, threshold, budget);
            && Sound(r.state.rows, current)
            && !r.outcome.SkippedNotDraft?
            && (r.outcome.Ok? ==> OnlyDraftIs(r.state.rows, current))
  {
    hide Sound;
    hide BaseMonths;
    hide Refresh;
    SoundLater(s.rows, now, current);
    BackfillKeepsSound(s.rows, current, pick, read, budget);
    var a := Backfill(s.rows, current, pick, read, budget);
    if a.done {
      FinalizeKeepsSound(a.rows, 0, current, read, a.left);
      var b := FinalizeFrom(a.rows, 0, current, read, a.left);
      if b.done {
        if b.rows != [] { SameLatest(a.rows, b.rows, current); }
        OpenDraftKeepsSound(b.rows, current, b.left);
        var c := OpenDraft(b.rows, current, b.left);
        if c.done {
          var i := FindMonth(c.rows, current);
          var r := Refresh(s.(rows := c.rows), i, read(current), threshold, c.left);
          RefreshKeepsSound(s.(rows := c.rows), i, read(current), threshold, c.left, current);
          DraftIsLatest(r.state.rows, i, current);
        }
      }
    }
  }

  lemma BackfillKeepsSound(rows: Rows, current: int, pick: nat, read: int -> Reading, budget: nat)
    requires Sound(rows, current) && LegalPick(rows, pick)
    ensures var p := Backfill(rows, current, pick, read, budget);
            && Sound(p.rows, current)
            && (p.done && p.rows != [] ==> Latest(p.rows) + 1 >= current)
  {
    if rows != [] {
      BackfillFromKeepsSound(rows, current, FirstQuantity(rows[pick].lines, PROVISIONABLE), read, budget);
    }
  }

  lemma SameLatest(a: Rows, b: Rows, now: int)
    requires Sound(a, now) && Sound(b, now) && BaseMonths(a) == BaseMonths(b) && a != [] && b != []
    ensures Latest(a) == Latest(b)
  {
    LatestIsLastBase(a, now);
    LatestIsLastBase(b, now);
  }

  lemma DraftIsLatest(rows: Rows, i: nat, now: int)
    requires Sound(rows, now) && i < |rows| && rows[i].status.Draft? && rows[i].month == now
    ensures OnlyDraftIs(rows, now)
  {
    LatestIsMaximum(rows);
  }

  lemma CorrectKeepsSound(rows: Rows, now: int, m: int, reading: Reading, budget: nat)
    requires Sound(rows, now)
    ensures Sound(Correct(rows, m, reading, budget).rows, now)
  {
    TotalsAddUp(rows, m);
    var c := Correct(rows, m, reading, budget);
    if c.rows != rows {
      var r := c.rows[|rows|];
      assert c.rows == rows + [r];
      CorrectionKeepsSound(rows, r, now);
    }
  }

  lemma {:induction false} TotalsAddUp(rows: Rows, m: int)
    requires forall i :: 0 <= i < |rows| ==> rows[i].total == rows[i].subtotal + rows[i].tax
    ensures MonthMoney(rows, m).total == MonthMoney(rows, m).subtotal + MonthMoney(rows, m).tax
  {
    if rows != [] { TotalsAddUp(rows[..|rows| - 1], m); }
  }

  // ----- What soundness means to a reader ------------------------------------------------------------

  function BaseCount(rows: Rows, m: int): nat {
    if rows == [] then 0
    else
      var last := rows[|rows| - 1];
      BaseCount(rows[..|rows| - 1], m) + if IsBase(last) && last.month == m then 1 else 0
  }

  lemma {:induction false} BaseCountIsMultiplicity(rows: Rows, m: int)
    ensures BaseCount(rows, m) == multiset(BaseMonths(rows))[m]
  {
    if rows != [] {
      var n := |rows| - 1;
      BaseCountIsMultiplicity(rows[..n], m);
    }
  }

  lemma {:induction false} ConsecutiveMultiplicity(ms: seq<int>, m: int)
    requires Consecutive(ms)
    ensures multiset(ms)[m] == if ms != [] && ms[0] <= m < ms[0] + |ms| then 1 else 0
  {
    if ms != [] {
      var n := |ms| - 1;
      assert ms == ms[..n] + [ms[n]];
      ConsecutiveMultiplicity(ms[..n], m);
    }
  }

  /** From the first invoiced month to the latest, each month has exactly one draft or finalized row; outside, none. */
  lemma SoundMeansGapFree(rows: Rows, now: int, m: int)
    requires Sound(rows, now) && rows != []
    ensures BaseMonths(rows) != []
    ensures BaseCount(rows, m) == if BaseMonths(rows)[0] <= m <= Latest(rows) then 1 else 0
    ensures forall i :: 0 <= i < |rows| ==> BaseMonths(rows)[0] <= rows[i].month <= Latest(rows)
  {
    LatestIsLastBase(rows, now);
    LatestIsMaximum(rows);
    BaseCountIsMultiplicity(rows, m);
    ConsecutiveMultiplicity(BaseMonths(rows), m);
    forall i | 0 <= i < |rows|
      ensures BaseMonths(rows)[0] <= rows[i].month
    {
      if IsBase(rows[i]) { BaseMember(rows, i); }
    }
  }
}
