/** Bill-shock notices over whole runs: one a month, unless a batch is cut between the mail and its mark. */
module LedgerNotices {
  import opened Basics
  import opened Billing
  import opened Ledger
  import opened LedgerSound
  import opened LedgerMoney
  import opened LedgerRuns

  // ----- One bill-shock notice a month ---------------------------------------------------------------

  /** The marks on the base rows record exactly the months a notice went out for, and no month got two. */
  ghost predicate NoticesMarked(s: State) {
    && (forall i :: 0 <= i < |s.rows| && IsBase(s.rows[i]) ==> (s.rows[i].notified <==> s.rows[i].month in s.notices))
    && (forall k :: 0 <= k < |s.notices| ==> HasMonth(s.rows, s.notices[k]))
    && (forall m :: multiset(s.notices)[m] <= 1)
  }

  lemma GrownKeepsMarks(s: State, rows': Rows)
    requires NoticesMarked(s) && Grown(s.rows, rows')
    requires forall i :: |s.rows| <= i < |rows'| && IsBase(rows'[i]) ==> !HasMonth(s.rows, rows'[i].month)
    ensures NoticesMarked(s.(rows := rows'))
  {
    forall k | 0 <= k < |s.notices| ensures HasMonth(rows', s.notices[k]) {
      GrownKeepsMonth(s.rows, rows', s.notices[k]);
    }
  }

  /** Whether this batch has to send a notice, given what was sent before. */
  predicate NoticeOwed(notices: seq<int>, current: int, total: int, threshold: Option<int>) {
    threshold.Some? && total > threshold.value && current !in notices
  }

  /** The draft's new bill is due for a notice, and the refresh is cut after the mail and before the mark. */
  predicate RefreshCutAfterMail(s: State, i: nat, reading: Reading, threshold: Option<int>, budget: nat)
    requires i < |s.rows|
  {
    budget == 3 && ShockDue(Priced(s.rows[i], InvoiceFor(reading.usage, reading.prices, reading.taxRate)), threshold)
  }

  /** What a refresh does to notices and marks: nothing, or a mail with its mark - or, cut there, without it. */
  lemma RefreshMails(s: State, i: nat, reading: Reading, threshold: Option<int>, budget: nat)
    requires i < |s.rows| && s.rows[i].status.Draft?
    ensures var s' := Refresh(s, i, reading, threshold, budget).state;
            && i < |s'.rows|
            && (if s'.notices == s.notices then s'.rows[i].notified == s.rows[i].notified
                else s'.notices == s.notices + [s.rows[i].month] && !s.rows[i].notified && (s'.rows[i].notified <==> budget != 3))
            && (RefreshCutAfterMail(s, i, reading, threshold, budget) <==> s'.notices != s.notices && budget == 3)
    ensures RefreshCutAfterMail(s, i, reading, threshold, budget) ==> Refresh(s, i, reading, threshold, budget).outcome.CutShort?
  {
    hide InvoiceFor;
    assert |s.notices + [s.rows[i].month]| != |s.notices|;
  }

  /** Billing a draft again, cut anywhere, keeps the marks right exactly unless it is cut between mail and mark. */
  lemma RefreshKeepsMarksIff(s: State, i: nat, reading: Reading, threshold: Option<int>, budget: nat)
    requires i < |s.rows| && s.rows[i].status.Draft? && Consecutive(BaseMonths(s.rows)) && NoticesMarked(s)
    ensures NoticesMarked(Refresh(s, i, reading, threshold, budget).state) <==> !RefreshCutAfterMail(s, i, reading, threshold, budget)
  {
    hide Refresh;
    hide RefreshCutAfterMail;
    hide BaseMonths;
    hide Consecutive;
    hide HasMonth;
    var s', m := Refresh(s, i, reading, threshold, budget).state, s.rows[i].month;
    RefreshMails(s, i, reading, threshold, budget);
    RefreshFrame(s, i, reading, threshold, budget);
    OnlyBaseOfItsMonth(s.rows, i);
    RowHasMonth(s.rows, i);
    forall k | 0 <= k < |s'.notices| ensures HasMonth(s'.rows, s'.notices[k]) {
      var n := s'.notices[k];
      if k < |s.notices| { assert n == s.notices[k]; }
      SameMonthsHaveMonth(s.rows, s'.rows, n);
    }
    if RefreshCutAfterMail(s, i, reading, threshold, budget) {
      assert s'.notices[|s.notices|] == m && !s'.rows[i].notified;
    }
  }

  lemma RowHasMonth(rows: Rows, i: nat)
    requires i < |rows|
    ensures HasMonth(rows, rows[i].month)
  {
  }

  lemma SameMonthsHaveMonth(rows: Rows, rows': Rows, m: int)
    requires |rows'| == |rows| && HasMonth(rows, m) && forall i :: 0 <= i < |rows| ==> rows'[i].month == rows[i].month
    ensures HasMonth(rows', m)
  {
    var i :| 0 <= i < |rows| && rows[i].month == m;
    assert rows'[i].month == m;
  }

  lemma OnlyBaseOfItsMonth(rows: Rows, i: nat)
    requires i < |rows| && IsBase(rows[i]) && Consecutive(BaseMonths(rows))
    ensures forall j :: 0 <= j < |rows| && j != i && IsBase(rows[j]) ==> rows[j].month != rows[i].month
  {
    forall j | 0 <= j < |rows| && j != i && IsBase(rows[j]) ensures rows[j].month != rows[i].month {
      if j < i { BaseMonthsDiffer(rows, j, i); } else { BaseMonthsDiffer(rows, i, j); }
    }
  }

  lemma RefreshNotices(s: State, i: nat, reading: Reading, threshold: Option<int>, budget: nat)
    requires i < |s.rows| && s.rows[i].status.Draft? && NoticesMarked(s)
    requires Refresh(s, i, reading, threshold, budget).outcome.Ok?
    ensures var r, m := Refresh(s, i, reading, threshold, budget), s.rows[i].month;
            r.state.notices == s.notices + (if NoticeOwed(s.notices, m, r.outcome.total, threshold) then [m] else [])
  {
  }

  /**
   A batch that is not cut sends a notice exactly when its total exceeds the threshold in force and the month
   has had none, so the first such pass is the one that sends it.
   */
  lemma BatchNotices(s: State, now: int, current: int, pick: nat, read: int -> Reading, threshold: Option<int>, budget: nat)
    requires Sound(s.rows, now) && NoticesMarked(s) && now <= current && LegalPick(s.rows, pick)
    requires !Batch(s, current, pick, read, threshold, budget).outcome.CutShort?
    ensures var r := Batch(s, current, pick, read, threshold, budget);
            && r.outcome.Ok? && NoticesMarked(r.state)
            && r.state.notices == s.notices + (if NoticeOwed(s.notices, current, r.outcome.total, threshold) then [current] else [])
  {
    hide Sound;
    hide Refresh;
    hide BaseMonths;
    hide NoticesMarked;
    BatchKeepsSound(s, now, current, pick, read, threshold, budget);
    BatchPlacesDraft(s, now, current, pick, read, budget);
    MarksBeforeRefresh(s, current, pick, read, budget);
    var b := FinalizeFrom(Backfill(s.rows, current, pick, read, budget).rows, 0, current, read, Backfill(s.rows, current, pick, read, budget).left);
    var c := OpenDraft(b.rows, current, b.left);
    BatchKeepsMarksIff(s, now, current, pick, read, threshold, budget);
    RefreshNotices(s.(rows := c.rows), FindMonth(c.rows, current), read(current), threshold, c.left);
  }

  /** Wherever it started, a batch that gets to billing the draft has the month's only draft in its place. */
  lemma BatchPlacesDraft(s: State, now: int, current: int, pick: nat, read: int -> Reading, budget: nat)
    requires Sound(s.rows, now) && now <= current && LegalPick(s.rows, pick)
    ensures var a := Backfill(s.rows, current, pick, read, budget);
            a.done ==>
              var b := FinalizeFrom(a.rows, 0, current, read, a.left);
              b.done ==>
                var c := OpenDraft(b.rows, current, b.left);
                c.done ==> Sound(c.rows, current) && FindMonth(c.rows, current) < |c.rows| && c.rows[FindMonth(c.rows, current)].status.Draft?
  {
    hide Sound;
    hide BaseMonths;
    hide Backfill;
    hide FinalizeFrom;
    hide Latest;
    SoundLater(s.rows, now, current);
    BackfillKeepsSound(s.rows, current, pick, read, budget);
    var a := Backfill(s.rows, current, pick, read, budget);
    if a.done {
      FinalizeKeepsSound(a.rows, 0, current, read, a.left);
      var b := FinalizeFrom(a.rows, 0, current, read, a.left);
      if b.done {
        if b.rows != [] { SameLatest(a.rows, b.rows, current); }
        OpenDraftKeepsSound(b.rows, current, b.left);
      }
    }
  }

  /** Before the draft is billed the marks stay right, wherever the batch is cut. */
  lemma MarksBeforeRefresh(s: State, current: int, pick: nat, read: int -> Reading, budget: nat)
    requires NoticesMarked(s) && LegalPick(s.rows, pick)
    ensures var a := Backfill(s.rows, current, pick, read, budget);
            && NoticesMarked(s.(rows := a.rows))
            && (a.done ==>
                  var b := FinalizeFrom(a.rows, 0, current, read, a.left);
                  && NoticesMarked(s.(rows := b.rows))
                  && (b.done ==> NoticesMarked(s.(rows := OpenDraft(b.rows, current, b.left).rows))))
  {
    hide BaseMonths;
    hide NoticesMarked;
    hide Backfill;
    hide FinalizeFrom;
    var a := Backfill(s.rows, current, pick, read, budget);
    BackfillKeepsMarks(s, current, pick, read, budget);
    if a.done {
      FinalizeGrows(a.rows, 0, current, read, a.left);
      var b := FinalizeFrom(a.rows, 0, current, read, a.left);
      GrownKeepsMarks(s.(rows := a.rows), b.rows);
      if b.done {
        var c := OpenDraft(b.rows, current, b.left);
        if c.rows != b.rows { assert !HasMonth(b.rows, current); }
        GrownKeepsMarks(s.(rows := b.rows), c.rows);
      }
    }
  }

  /** The batch is cut between the mail and the mark: it has got to the draft, with just the effects left for that. */
  predicate CutAfterMail(s: State, current: int, pick: nat, read: int -> Reading, threshold: Option<int>, budget: nat)
    requires LegalPick(s.rows, pick)
  {
    var a := Backfill(s.rows, current, pick, read, budget);
    a.done &&
    var b := FinalizeFrom(a.rows, 0, current, read, a.left);
    b.done &&
    var c := OpenDraft(b.rows, current, b.left);
    c.done && FindMonth(c.rows, current) < |c.rows|
    && RefreshCutAfterMail(s.(rows := c.rows), FindMonth(c.rows, current), read(current), threshold, c.left)
  }

  /** Cut anywhere else, a batch keeps the marks right; cut there it does not. */
  lemma BatchKeepsMarksIff(s: State, now: int, current: int, pick: nat, read: int -> Reading, threshold: Option<int>, budget: nat)
    requires Sound(s.rows, now) && NoticesMarked(s) && now <= current && LegalPick(s.rows, pick)
    ensures NoticesMarked(Batch(s, current, pick, read, threshold, budget).state) <==> !CutAfterMail(s, current, pick, read, threshold, budget)
    ensures CutAfterMail(s, current, pick, read, threshold, budget) ==> Batch(s, current, pick, read, threshold, budget).outcome.CutShort?
  {
    hide Sound;
    hide Refresh;
    hide BaseMonths;
    hide NoticesMarked;
    hide RefreshCutAfterMail;
    BatchPlacesDraft(s, now, current, pick, read, budget);
    MarksBeforeRefresh(s, current, pick, read, budget);
    var a := Backfill(s.rows, current, pick, read, budget);
    if a.done {
      var b := FinalizeFrom(a.rows, 0, current, read, a.left);
      if b.done {
        var c := OpenDraft(b.rows, current, b.left);
        if c.done {
          SoundIsConsecutive(c.rows, current);
          RefreshKeepsMarksIff(s.(rows := c.rows), FindMonth(c.rows, current), read(current), threshold, c.left);
          RefreshMails(s.(rows := c.rows), FindMonth(c.rows, current), read(current), threshold, c.left);
        }
      }
    }
  }

  lemma BackfillKeepsMarks(s: State, current: int, pick: nat, read: int -> Reading, budget: nat)
    requires NoticesMarked(s) && LegalPick(s.rows, pick)
    ensures NoticesMarked(s.(rows := Backfill(s.rows, current, pick, read, budget).rows))
  {
    hide NoticesMarked;
    if s.rows != [] {
      var next, kept := Latest(s.rows) + 1, FirstQuantity(s.rows[pick].lines, PROVISIONABLE);
      BackfillGrows(s.rows, next, current, kept, read, budget);
      LatestIsMaximum(s.rows);
      GrownKeepsMarks(s, BackfillFrom(s.rows, next, current, kept, read, budget).rows);
    } else {
      assert s.(rows := s.rows) == s;
    }
  }

  predicate MailCut(s: State, e: Event)
    requires e.BatchRun? ==> LegalPick(s.rows, e.pick)
  {
    e.BatchRun? && CutAfterMail(s, e.current, e.pick, e.read, e.threshold, e.budget)
  }

  /**
   Over any run, with operations cut anywhere except between a mail and its mark, no month gets a second bill-shock
   notice, and the marks say which months had theirs.
   */
  lemma {:induction false} OneNoticePerMonth(states: seq<State>, events: seq<Event>, clocks: seq<int>, i: nat)
    requires IsRun(states, events, clocks) && i < |states|
    requires forall k :: 0 <= k < i ==> Possible(states[k], clocks[k], events[k]) && !MailCut(states[k], events[k])
    ensures NoticesMarked(states[i])
    ensures forall m :: multiset(states[i].notices)[m] <= 1
  {
    hide CutAfterMail;
    hide Batch;
    if i > 0 {
      var s, e := states[i - 1], events[i - 1];
      OneNoticePerMonth(states, events, clocks, i - 1);
      EveryRunIsSound(states, events, clocks, i - 1);
      assert Possible(s, clocks[i - 1], e) && !MailCut(s, e);
      match e
      case BatchRun(current, pick, read, threshold, budget) =>
        BatchKeepsMarksIff(s, clocks[i - 1], current, pick, read, threshold, budget);
      case CorrectionRun(m, reading, budget) =>
        CorrectShape(s.rows, m, reading, budget);
        GrownKeepsMarks(s, After(s, e).rows);
    }
  }

  // ----- The second mail -----------------------------------------------------------------------------

  lemma {:induction false} NothingStale(rows: Rows, i: nat, current: int, read: int -> Reading, budget: nat)
    requires i <= |rows| && forall j :: 0 <= j < |rows| ==> !IsStale(rows[j], current)
    ensures FinalizeFrom(rows, i, current, read, budget) == Phase(rows, budget, true)
    decreases |rows| - i
  {
    if i < |rows| { NothingStale(rows, i + 1, current, read, budget); }
  }

  /** While its month goes on, a batch only bills the draft again. */
  lemma BatchAgainRefreshes(s: State, current: int, pick: nat, read: int -> Reading, threshold: Option<int>, budget: nat)
    requires OnlyDraftIs(s.rows, current) && LegalPick(s.rows, pick) && FindMonth(s.rows, current) < |s.rows|
    ensures Batch(s, current, pick, read, threshold, budget)
         == Refresh(s, FindMonth(s.rows, current), read(current), threshold, budget)
  {
    hide Refresh;
    NothingStale(s.rows, 0, current, read, budget);
    OpenDraftFinds(s.rows, current, budget);
    assert s.(rows := s.rows) == s;
  }

  /** The mail is out, the mark is not, and the draft is open. */
  ghost predicate MailedUnmarked(s: State, current: int, notices: seq<int>) {
    && s.notices == notices + [current]
    && OnlyDraftIs(s.rows, current)
    && FindMonth(s.rows, current) < |s.rows| && s.rows[FindMonth(s.rows, current)].status.Draft?
    && !s.rows[FindMonth(s.rows, current)].notified
  }

  lemma CutRefreshLeaves(s: State, i: nat, reading: Reading, threshold: Option<int>, current: int)
    requires Sound(s.rows, current) && i == FindMonth(s.rows, current) < |s.rows| && s.rows[i].status.Draft?
    requires RefreshCutAfterMail(s, i, reading, threshold, 3)
    ensures MailedUnmarked(Refresh(s, i, reading, threshold, 3).state, current, s.notices)
  {
    hide Sound;
    hide Refresh;
    hide RefreshCutAfterMail;
    var rows' := Refresh(s, i, reading, threshold, 3).state.rows;
    RefreshKeepsSound(s, i, reading, threshold, 3, current);
    RefreshMails(s, i, reading, threshold, 3);
    RefreshFrame(s, i, reading, threshold, 3);
    SameMonthsSameFind(s.rows, rows', current);
    DraftIsLatest(rows', i, current);
  }

  lemma CutBatchLeaves(s: State, now: int, current: int, pick: nat, read: int -> Reading, threshold: Option<int>, budget: nat)
    requires Sound(s.rows, now) && now <= current && LegalPick(s.rows, pick)
    requires CutAfterMail(s, current, pick, read, threshold, budget)
    ensures MailedUnmarked(Batch(s, current, pick, read, threshold, budget).state, current, s.notices)
  {
    hide Sound;
    hide Backfill;
    hide FinalizeFrom;
    hide OpenDraft;
    hide Refresh;
    hide MailedUnmarked;
    BatchPlacesDraft(s, now, current, pick, read, budget);
    var a := Backfill(s.rows, current, pick, read, budget);
    var b := FinalizeFrom(a.rows, 0, current, read, a.left);
    var c := OpenDraft(b.rows, current, b.left);
    CutRefreshLeaves(s.(rows := c.rows), FindMonth(c.rows, current), read(current), threshold, current);
  }

  /**
   Whatever ledger the batch started from: when it is cut between mail and mark, the next batch of the month that ends
   above the threshold mails again.
   */
  lemma CutAfterMailRepeatsTheNotice(
    s: State, now: int, current: int, pick: nat, read: int -> Reading, threshold: Option<int>, budget: nat,
    pick': nat, read': int -> Reading, threshold': Option<int>, budget': nat)
    requires Sound(s.rows, now) && now <= current && LegalPick(s.rows, pick)
    requires CutAfterMail(s, current, pick, read, threshold, budget)
    requires var cut := Batch(s, current, pick, read, threshold, budget).state;
             && LegalPick(cut.rows, pick')
             && var r := Batch(cut, current, pick', read', threshold', budget');
                r.outcome.Ok? && threshold'.Some? && r.outcome.total > threshold'.value
    ensures Batch(Batch(s, current, pick, read, threshold, budget).state, current, pick', read', threshold', budget').state.notices
         == s.notices + [current, current]
  {
    hide Sound;
    hide InvoiceFor;
    hide FinalizeFrom;
    hide CutAfterMail;
    var cut := Batch(s, current, pick, read, threshold, budget).state;
    CutBatchLeaves(s, now, current, pick, read, threshold, budget);
    SecondMail(cut, current, pick', read', threshold', budget', s.notices);
  }

  lemma SecondMail(s: State, current: int, pick: nat, read: int -> Reading, threshold: Option<int>, budget: nat, notices: seq<int>)
    requires MailedUnmarked(s, current, notices) && LegalPick(s.rows, pick)
    requires var r := Batch(s, current, pick, read, threshold, budget);
             r.outcome.Ok? && threshold.Some? && r.outcome.total > threshold.value
    ensures Batch(s, current, pick, read, threshold, budget).state.notices == notices + [current, current]
  {
    hide Batch;
    hide InvoiceFor;
    BatchAgainRefreshes(s, current, pick, read, threshold, budget);
  }

  lemma SameMonthsSameFind(rows: Rows, rows': Rows, m: int)
    requires |rows| == |rows'| && forall i :: 0 <= i < |rows| ==> rows'[i].month == rows[i].month
    ensures FindMonth(rows', m) == FindMonth(rows, m)
  {
    var a, b := FindMonth(rows, m), FindMonth(rows', m);
    assert a < |rows| ==> rows'[a].month == m;
    assert b < |rows| ==> rows[b].month == m;
  }
}
