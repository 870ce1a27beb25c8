/**
 Periodic exports: which periods the hourly poll asks for. Times are seconds; a poll that raises stops after
 some number of its commits, as a budget says.
 */
module ExportSchedule {
  import opened Basics
  import P = ExportProtocol

  type Tenant = nat

  datatype Frequency = Daily | Weekly | Monthly

  function Interval(f: Frequency): (seconds: int)
    ensures seconds > 0
  {
    match f
    case Daily => 86400
    case Weekly => 7 * 86400
    case Monthly => 30 * 86400
  }

  datatype Schedule = Schedule(frequency: Frequency, enabled: bool, lastRun: Option<int>)

  /** The period side of the periodic job row, its status, and whether it has a file from before. */
  datatype Row = Row(start: int, end: int, status: P.Status, hasFile: bool)

  /** The size estimate of a period: a number of bytes, a group that no longer exists, or a data source that is down. */
  datatype Estimate = Bytes(n: nat) | GroupMissing | Unavailable

  /** An attempt that moved the schedule forward: its period, the interval in force, and whether a file was asked for. */
  datatype Attempt = Attempt(start: int, end: int, interval: int, generate: bool)

  /** One tenant: the schedule, the job row, and the history of attempts that advanced the schedule. */
  datatype Account = Account(schedule: Schedule, row: Option<Row>, attempts: seq<Attempt>)

  predicate IsDue(s: Schedule, now: int) {
    s.enabled && (s.lastRun.None? || now - s.lastRun.value >= Interval(s.frequency))
  }

  /** The schedule is due and its period passes the size gate. */
  predicate Accepted(a: Account, now: int, estimate: Estimate, limit: nat) {
    IsDue(a.schedule, now) && estimate.Bytes? && estimate.n <= limit
  }

  function PeriodStart(s: Schedule, now: int): int {
    if s.lastRun.Some? then s.lastRun.value else now - Interval(s.frequency)
  }

  function FailedRow(row: Row): Row { row.(status := P.StatusAfterFailure(row.hasFile)) }

  function Advanced(a: Account, now: int, row: Row, generate: bool): Account {
    Account(a.schedule.(lastRun := Some(now)), Some(row),
            a.attempts + [Attempt(PeriodStart(a.schedule, now), now, Interval(a.schedule.frequency), generate)])
  }

  /** What one schedule's turn in a poll leaves: the account, the budget left, whether to go on, whether to generate. */
  datatype Turn = Turn(account: Account, left: nat, goesOn: bool, due: bool)

  function TakeTurn(a: Account, now: int, estimate: Estimate, limit: nat, budget: nat): Turn {
    if !IsDue(a.schedule, now) then Turn(a, budget, true, false)
    else if budget == 0 then Turn(a, 0, false, false)
    else
      var hasFile := a.row.Some? && a.row.value.hasFile;
      var row := Row(PeriodStart(a.schedule, now), now, P.Queued, hasFile);
      if estimate.Unavailable? then Turn(a.(row := Some(FailedRow(row))), budget - 1, true, false)
      else if estimate.GroupMissing? || estimate.n > limit then Turn(Advanced(a, now, FailedRow(row), false), budget - 1, true, false)
      else if budget == 1 then Turn(a.(row := Some(row)), 0, false, false)
      else Turn(Advanced(a, now, row, true), budget - 2, true, true)
  }

  // ----- What a turn does ----------------------------------------------------------------------------

  function Seconds(f: Frequency): int {
    match f
    case Daily => 24 * 3600
    case Weekly => 7 * 24 * 3600
    case Monthly => 30 * 24 * 3600
  }

  /** A row is queued for generation, for the period of the last attempt. */
  ghost predicate Generates(a: Account, now: int) {
    && a.row.Some? && a.attempts != []
    && var row, last := a.row.value, a.attempts[|a.attempts| - 1];
       row.status.Queued? && last.generate && row.start == last.start && row.end == last.end == now
  }

  /**
   Said of the turn from outside, at every cut. A schedule that is disabled, or ran less than its interval ago, is left
   alone. Otherwise the row takes the period from the last run to now and keeps its file; a period within the limit is
   queued and then the schedule moves on; one that is too large, or of a missing group, is noted as failed and the schedule
   moves on; and one whose size cannot be estimated is noted as failed and tried again.
   */
  lemma TurnSays(a: Account, now: int, estimate: Estimate, limit: nat, budget: nat)
    ensures var t, s := TakeTurn(a, now, estimate, limit, budget), a.schedule;
            if !s.enabled || (s.lastRun.Some? && now - s.lastRun.value < Seconds(s.frequency)) then t == Turn(a, budget, true, false)
            else if budget == 0 then t == Turn(a, 0, false, false)
            else
              var start := if s.lastRun.Some? then s.lastRun.value else now - Seconds(s.frequency);
              var hasFile := a.row.Some? && a.row.value.hasFile;
              var fits := estimate.Bytes? && estimate.n <= limit;
              var movesOn := if fits then budget >= 2 else !estimate.Unavailable?;
              && t.account.row == Some(Row(start, now, if fits then P.Queued else if hasFile then P.Done else P.Failed, hasFile))
              && t.account.schedule == (if movesOn then s.(lastRun := Some(now)) else s)
              && t.account.attempts == (if movesOn then a.attempts + [Attempt(start, now, Seconds(s.frequency), fits)] else a.attempts)
              && t.due == (fits && budget >= 2) && t.goesOn == (!fits || budget >= 2)
              && t.left == budget - (if fits && budget >= 2 then 2 else 1)
              && (t.due ==> Generates(t.account, now))
  {
  }

  // ----- The periods tile the time line --------------------------------------------------------------

  /** Each attempt starts where the one before ended, none is shorter than its interval, and the last ends at the last run. */
  ghost predicate Tiled(a: Account) {
    && (a.attempts != [] ==> a.schedule.lastRun == Some(a.attempts[|a.attempts| - 1].end))
    && (forall i :: 0 <= i < |a.attempts| ==> 0 < a.attempts[i].interval <= a.attempts[i].end - a.attempts[i].start)
    && (forall i :: 0 < i < |a.attempts| ==> a.attempts[i].start == a.attempts[i - 1].end)
  }

  /** What can happen to one tenant between polls: the settings are edited, the row is deleted, a generation ends. */
  datatype Happening =
    | Poll(now: int, estimate: Estimate, limit: nat, budget: nat)
    | Edit(frequency: Frequency, enabled: bool)
    | DeleteRow
    | Generated(ok: bool)

  function Happen(a: Account, h: Happening): Account {
    match h
    case Poll(now, estimate, limit, budget) => TakeTurn(a, now, estimate, limit, budget).account
    case Edit(frequency, enabled) => a.(schedule := a.schedule.(frequency := frequency, enabled := enabled))
    case DeleteRow => a.(row := None)
    case Generated(ok) =>
      if a.row.None? then a
      else if ok then a.(row := Some(a.row.value.(status := P.Done, hasFile := true)))
      else a.(row := Some(FailedRow(a.row.value)))
  }

  function HappenAll(a: Account, hs: seq<Happening>): Account {
    if hs == [] then a else Happen(HappenAll(a, hs[..|hs| - 1]), hs[|hs| - 1])
  }

  lemma TurnTiles(a: Account, now: int, estimate: Estimate, limit: nat, budget: nat)
    requires Tiled(a)
    ensures Tiled(TakeTurn(a, now, estimate, limit, budget).account)
  {
    var t := TakeTurn(a, now, estimate, limit, budget).account;
    if t.attempts != a.attempts {
      var n := |a.attempts|;
      assert t.attempts[n].end - t.attempts[n].start >= Interval(a.schedule.frequency);
      forall i | 0 < i < |t.attempts| ensures t.attempts[i].start == t.attempts[i - 1].end {
        if i == n { assert t.attempts[i - 1] == a.attempts[n - 1]; }
      }
    }
  }

  /**
   Over any sequence of polls - at any clock readings, with the data source failing, or cut between commits -
   of edits, deletions and generations, the periods tile the time line.
   */
  lemma {:induction false} PeriodsTile(a: Account, hs: seq<Happening>)
    requires Tiled(a)
    ensures Tiled(HappenAll(a, hs))
  {
    if hs != [] {
      PeriodsTile(a, hs[..|hs| - 1]);
      var before, h := HappenAll(a, hs[..|hs| - 1]), hs[|hs| - 1];
      if h.Poll? { TurnTiles(before, h.now, h.estimate, h.limit, h.budget); }
    }
  }

  function Covering(attempts: seq<Attempt>, x: int): nat {
    if attempts == [] then 0
    else
      var last := attempts[|attempts| - 1];
      Covering(attempts[..|attempts| - 1], x) + if last.start <= x < last.end then 1 else 0
  }

  /** So every moment from the first period's start to the last run lies in exactly one period, and no other moment in any. */
  lemma {:induction false} EveryMomentOnce(a: Account, x: int)
    requires Tiled(a) && a.attempts != []
    ensures Covering(a.attempts, x) == if a.attempts[0].start <= x < a.schedule.lastRun.value then 1 else 0
  {
    CoveredPrefix(a, |a.attempts|, x);
    assert a.attempts[..|a.attempts|] == a.attempts;
  }

  lemma {:induction false} CoveredPrefix(a: Account, n: nat, x: int)
    requires Tiled(a) && 1 <= n <= |a.attempts|
    ensures a.attempts[0].start < a.attempts[n - 1].end
    ensures Covering(a.attempts[..n], x) == if a.attempts[0].start <= x < a.attempts[n - 1].end then 1 else 0
  {
    assert a.attempts[..n][..n - 1] == a.attempts[..n - 1];
    if n > 1 {
      CoveredPrefix(a, n - 1, x);
    } else {
      assert a.attempts[..0] == [];
    }
  }

  /** The data source is down through these polls. */
  ghost predicate Outage(hs: seq<Happening>) { forall i :: 0 <= i < |hs| ==> hs[i].Poll? && hs[i].estimate.Unavailable? }

  lemma {:induction false} OutageMovesNothing(a: Account, hs: seq<Happening>)
    requires Outage(hs)
    ensures var t := HappenAll(a, hs); t.schedule == a.schedule && t.attempts == a.attempts
  {
    if hs != [] { OutageMovesNothing(a, hs[..|hs| - 1]); }
  }

  /**
   Failed estimates move nothing: through an outage of any length the schedule and the history stay, so the next attempt
   that advances is the one it would have been anyway. A poll after the outage asks for the time from where a poll before
   it would have started exactly when the schedule has run before: the first period of a schedule that never ran is
   counted back from the poll, and what an outage delays it by is in no period.
   */
  lemma {:induction false} FailedEstimateLosesNoTimeIff(
    a: Account, now: int, outage: seq<Happening>, later: int, estimate: Estimate, limit: nat, budget: nat)
    requires Outage(outage)
    ensures var t := HappenAll(a, outage);
            && t.schedule == a.schedule && t.attempts == a.attempts
            && TakeTurn(t, later, estimate, limit, budget).account.attempts == TakeTurn(a, later, estimate, limit, budget).account.attempts
            && (PeriodStart(t.schedule, later) == PeriodStart(a.schedule, now) <==> a.schedule.lastRun.Some? || later == now)
  {
    OutageMovesNothing(a, outage);
  }

  /** A schedule that never ran, due when the data source is down: the moment its period would have begun with is in none. */
  lemma FirstPeriodSlides(limit: nat)
    ensures var a := Account(Schedule(Daily, true, None), None, []);
            && Covering(HappenAll(a, [Poll(86400, Bytes(0), limit, 2)]).attempts, 0) == 1
            && Covering(HappenAll(a, [Poll(86400, Unavailable, limit, 1), Poll(90000, Bytes(0), limit, 2)]).attempts, 0) == 0
  {
  }

  // ----- The poll ------------------------------------------------------------------------------------

  /** All turns of a poll, in the order the database lists the schedules. */
  function PollAll(accounts: map<Tenant, Account>, order: seq<Tenant>, now: int, estimate: Tenant -> Estimate, limit: nat, budget: nat)
    : map<Tenant, Account>
    requires forall t :: t in order ==> t in accounts
  {
    if order == [] then accounts
    else
      var turn := TakeTurn(accounts[order[0]], now, estimate(order[0]), limit, budget);
      var accounts' := accounts[order[0] := turn.account];
      if turn.goesOn then PollAll(accounts', order[1..], now, estimate, limit, turn.left) else accounts'
  }

  predicate Distinct(order: seq<Tenant>) { forall i, j :: 0 <= i < j < |order| ==> order[i] != order[j] }

  /** A poll is nothing but turns: each account has its own under some budget, or none, which is a turn that is cut at once. */
  lemma {:induction false} PollIsTurns(
    accounts: map<Tenant, Account>, order: seq<Tenant>, now: int, estimate: Tenant -> Estimate, limit: nat, budget: nat, t: Tenant)
    requires (forall u :: u in order ==> u in accounts) && Distinct(order) && t in accounts
    ensures t in PollAll(accounts, order, now, estimate, limit, budget)
    ensures exists b: nat ::
              PollAll(accounts, order, now, estimate, limit, budget)[t] == Happen(accounts[t], Poll(now, estimate(t), limit, b))
    decreases |order|
  {
    hide TakeTurn;
    NoTurn(accounts[t], now, estimate(t), limit);
    if order != [] {
      var turn := TakeTurn(accounts[order[0]], now, estimate(order[0]), limit, budget);
      var accounts', rest := accounts[order[0] := turn.account], order[1..];
      assert Happen(accounts[order[0]], Poll(now, estimate(order[0]), limit, budget)) == turn.account;
      if turn.goesOn {
        assert forall u :: u in rest ==> u in order;
        PollIsTurns(accounts', rest, now, estimate, limit, turn.left, t);
        if t == order[0] { PollSkips(accounts', rest, now, estimate, limit, turn.left, t); }
      }
    }
  }

  lemma {:induction false} PollKeys(
    accounts: map<Tenant, Account>, order: seq<Tenant>, now: int, estimate: Tenant -> Estimate, limit: nat, budget: nat)
    requires forall u :: u in order ==> u in accounts
    ensures PollAll(accounts, order, now, estimate, limit, budget).Keys == accounts.Keys
    decreases |order|
  {
    hide TakeTurn;
    if order != [] {
      var turn := TakeTurn(accounts[order[0]], now, estimate(order[0]), limit, budget);
      assert order[0] in order && forall u :: u in order[1..] ==> u in order;
      if turn.goesOn { PollKeys(accounts[order[0] := turn.account], order[1..], now, estimate, limit, turn.left); }
    }
  }

  lemma NoTurn(a: Account, now: int, estimate: Estimate, limit: nat)
    ensures Happen(a, Poll(now, estimate, limit, 0)) == a
  {
  }

  lemma {:induction false} PollSkips(
    accounts: map<Tenant, Account>, order: seq<Tenant>, now: int, estimate: Tenant -> Estimate, limit: nat, budget: nat, t: Tenant)
    requires (forall u :: u in order ==> u in accounts) && t in accounts && t !in order
    ensures t in PollAll(accounts, order, now, estimate, limit, budget)
    ensures PollAll(accounts, order, now, estimate, limit, budget)[t] == accounts[t]
    decreases |order|
  {
    hide TakeTurn;
    if order != [] {
      var turn := TakeTurn(accounts[order[0]], now, estimate(order[0]), limit, budget);
      assert order[0] in order && forall u :: u in order[1..] ==> u in order;
      if turn.goesOn { PollSkips(accounts[order[0] := turn.account], order[1..], now, estimate, limit, turn.left, t); }
    }
  }

  ghost predicate AllTiled(accounts: map<Tenant, Account>) { forall t :: t in accounts ==> Tiled(accounts[t]) }

  /** So a poll keeps every tenant's periods tiled. */
  lemma PollTiles(accounts: map<Tenant, Account>, order: seq<Tenant>, now: int, estimate: Tenant -> Estimate, limit: nat, budget: nat)
    requires (forall u :: u in order ==> u in accounts) && Distinct(order) && AllTiled(accounts)
    ensures AllTiled(PollAll(accounts, order, now, estimate, limit, budget))
  {
    hide Tiled;
    hide TakeTurn;
    hide PollAll;
    var after := PollAll(accounts, order, now, estimate, limit, budget);
    PollKeys(accounts, order, now, estimate, limit, budget);
    forall t | t in after ensures Tiled(after[t]) {
      assert t in accounts.Keys;
      PollIsTurns(accounts, order, now, estimate, limit, budget, t);
      var b: nat :| after[t] == Happen(accounts[t], Poll(now, estimate(t), limit, b));
      TurnTiles(accounts[t], now, estimate(t), limit, b);
    }
  }

  /** Accepted, in plain terms: enabled, never run or a whole interval ago, and within the limit. */
  lemma AcceptedIff(a: Account, now: int, estimate: Estimate, limit: nat)
    ensures Accepted(a, now, estimate, limit) <==>
              && a.schedule.enabled
              && (a.schedule.lastRun.Some? ==> now - a.schedule.lastRun.value >= Seconds(a.schedule.frequency))
              && estimate.Bytes? && estimate.n <= limit
  {
  }

  lemma DueIffAccepted(a: Account, now: int, estimate: Estimate, limit: nat, budget: nat)
    ensures var turn := TakeTurn(a, now, estimate, limit, budget);
            && (turn.goesOn ==> (turn.due <==> Accepted(a, now, estimate, limit)))
            && (turn.due ==> Generates(turn.account, now))
            && (turn.goesOn ==> turn.account == TakeTurn(a, now, estimate, limit, 2).account)
  {
  }

  /** How many commits a poll needs that is not cut: none for a schedule that is not due, two to queue a file, and one else. */
  function CommitsNeeded(accounts: map<Tenant, Account>, order: seq<Tenant>, now: int, estimate: Tenant -> Estimate, limit: nat): nat
    requires forall t :: t in order ==> t in accounts
  {
    if order == [] then 0
    else
      var s, e := accounts[order[|order| - 1]].schedule, estimate(order[|order| - 1]);
      CommitsNeeded(accounts, order[..|order| - 1], now, estimate, limit)
      + if !s.enabled || (s.lastRun.Some? && now - s.lastRun.value < Seconds(s.frequency)) then 0
        else if e.Bytes? && e.n <= limit then 2 else 1
  }

  /** A turn is cut exactly when its commits are more than are left. */
  lemma TurnNeeds(accounts: map<Tenant, Account>, order: seq<Tenant>, i: nat, now: int, estimate: Tenant -> Estimate, limit: nat, left: nat)
    requires (forall t :: t in order ==> t in accounts) && i < |order|
    ensures var turn := TakeTurn(accounts[order[i]], now, estimate(order[i]), limit, left);
            var before, after := CommitsNeeded(accounts, order[..i], now, estimate, limit), CommitsNeeded(accounts, order[..i + 1], now, estimate, limit);
            && before <= after
            && turn.goesOn == (left >= after - before)
            && (turn.goesOn ==> turn.left == left - (after - before))
  {
    assert order[..i + 1][..i] == order[..i];
    TurnSays(accounts[order[i]], now, estimate(order[i]), limit, left);
  }

  lemma {:induction false} NeedsGrow(accounts: map<Tenant, Account>, order: seq<Tenant>, i: nat, now: int, estimate: Tenant -> Estimate, limit: nat)
    requires (forall t :: t in order ==> t in accounts) && i <= |order|
    ensures CommitsNeeded(accounts, order[..i], now, estimate, limit) <= CommitsNeeded(accounts, order, now, estimate, limit)
    decreases |order| - i
  {
    if i == |order| {
      assert order[..i] == order;
    } else {
      assert order[..i + 1][..i] == order[..i];
      NeedsGrow(accounts, order, i + 1, now, estimate, limit);
    }
  }

  lemma NothingNeeded(accounts: map<Tenant, Account>, now: int, estimate: Tenant -> Estimate, limit: nat)
    ensures CommitsNeeded(accounts, [], now, estimate, limit) == 0
  {
  }

  class Scheduler {
    var accounts: map<Tenant, Account>

    ghost predicate Valid()
      reads this
    {
      AllTiled(accounts)
    }

    constructor ()
      ensures Valid() && accounts == map[]
    {
      accounts := map[];
    }

    /** The portal's edit of the settings; the last run is not touched. */
    method UpdateSchedule(t: Tenant, frequency: Frequency, enabled: bool)
      requires Valid()
      modifies this
      ensures Valid()
      ensures accounts == old(accounts)[t := if t in old(accounts)
                                             then Account(Schedule(frequency, enabled, old(accounts)[t].schedule.lastRun),
                                                          old(accounts)[t].row, old(accounts)[t].attempts)
                                             else Account(Schedule(frequency, enabled, None), None, [])]
      ensures t in old(accounts) ==> accounts[t] == Happen(old(accounts)[t], Edit(frequency, enabled))
    {
      var schedule := if t in accounts then accounts[t].schedule.(frequency := frequency, enabled := enabled)
                      else Schedule(frequency, enabled, None);
      accounts := accounts[t := if t in accounts then accounts[t].(schedule := schedule) else Account(schedule, None, [])];
    }

    /** One schedule's turn: skipped, failed, refused, or queued - the job row first, the schedule in a second commit. */
    method TakeOneTurn(t: Tenant, now: int, estimate: Estimate, limit: nat, budget: nat) returns (left: nat, goesOn: bool, due: bool)
      requires t in accounts
      modifies this
      ensures var turn := TakeTurn(old(accounts)[t], now, estimate, limit, budget);
              && accounts == old(accounts)[t := turn.account]
              && left == turn.left && goesOn == turn.goesOn && due == turn.due
    {
      var a := accounts[t];
      var interval := Interval(a.schedule.frequency);
      if !a.schedule.enabled { return budget, true, false; }
      if a.schedule.lastRun.Some? && now - a.schedule.lastRun.value < interval { return budget, true, false; }
      var start := if a.schedule.lastRun.Some? then a.schedule.lastRun.value else now - interval;
      var row := Row(start, now, P.Queued, a.row.Some? && a.row.value.hasFile);
      if budget == 0 { return 0, false, false; }
      if estimate.Unavailable? {
        accounts := accounts[t := a.(row := Some(FailedRow(row)))];
        return budget - 1, true, false;
      }
      if estimate.GroupMissing? || estimate.n > limit {
        accounts := accounts[t := Account(a.schedule.(lastRun := Some(now)), Some(FailedRow(row)), a.attempts + [Attempt(start, now, interval, false)])];
        return budget - 1, true, false;
      }
      accounts := accounts[t := a.(row := Some(row))];
      if budget == 1 { return 0, false, false; }
      accounts := accounts[t := Account(a.schedule.(lastRun := Some(now)), Some(row), a.attempts + [Attempt(start, now, interval, true)])];
      return budget - 2, true, true;
    }

    /**
     One poll, cut exactly when it needs more commits than take effect. When it is not cut, exactly the tenants whose
     period was accepted are handed on for generation, each with its row queued for the period of its last attempt, and
     every tenant has had its full turn; when it is cut, none is handed on.
     */
    method RunDuePeriodicExports(order: seq<Tenant>, now: int, estimate: Tenant -> Estimate, limit: nat, budget: nat)
      returns (due: seq<Tenant>, done: bool)
      requires Valid() && (forall t :: t in order ==> t in accounts) && Distinct(order)
      modifies this
      ensures Valid()
      ensures accounts == PollAll(old(accounts), order, now, estimate, limit, budget)
      ensures done <==> budget >= CommitsNeeded(old(accounts), order, now, estimate, limit)
      ensures !done ==> due == []
      ensures done ==> forall t :: t in due <==> t in order && t in old(accounts) && Accepted(old(accounts)[t], now, estimate(t), limit)
      ensures forall t :: t in due ==> t in accounts && Generates(accounts[t], now)
      ensures done ==> forall t :: t in order ==> t in accounts && t in old(accounts)
                                                  && accounts[t] == TakeTurn(old(accounts)[t], now, estimate(t), limit, 2).account
    {
      hide TakeTurn;
      hide Accepted;
      hide AllTiled;
      hide Generates;
      hide CommitsNeeded;
      due := [];
      NothingNeeded(accounts, now, estimate, limit);
      var left := budget;
      PollTiles(accounts, order, now, estimate, limit, budget);
      for i := 0 to |order|
        invariant accounts.Keys == old(accounts).Keys
        invariant PollAll(accounts, order[i..], now, estimate, limit, left)
               == PollAll(old(accounts), order, now, estimate, limit, budget)
        invariant forall k :: i <= k < |order| ==> accounts[order[k]] == old(accounts)[order[k]]
        invariant left == budget - CommitsNeeded(old(accounts), order[..i], now, estimate, limit)
        invariant forall t :: t in due <==> t in order[..i] && Accepted(old(accounts)[t], now, estimate(t), limit)
        invariant forall t :: t in due ==> t in accounts && Generates(accounts[t], now)
        invariant forall k :: 0 <= k < i ==>
                    accounts[order[k]] == TakeTurn(old(accounts)[order[k]], now, estimate(order[k]), limit, 2).account
      {
        assert order[i..][0] == order[i] && order[i..][1..] == order[i + 1..];
        assert order[..i + 1] == order[..i] + [order[i]];
        DueIffAccepted(accounts[order[i]], now, estimate(order[i]), limit, left);
        TurnNeeds(old(accounts), order, i, now, estimate, limit, left);
        NeedsGrow(old(accounts), order, i + 1, now, estimate, limit);
        var goesOn, accepted;
        left, goesOn, accepted := TakeOneTurn(order[i], now, estimate(order[i]), limit, left);
        if !goesOn { return [], false; }
        if accepted { due := due + [order[i]]; }
      }
      assert order[|order|..] == [] && order[..|order|] == order;
      done := true;
    }
  }
}
