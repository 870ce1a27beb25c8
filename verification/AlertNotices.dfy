/** Delivery statuses in memory and in the database, and the mails to the admins that hang on them. */
module AlertNotices {
  import opened Basics
  import opened Alerts
  import AlertRuns

  // ----- What a notification does --------------------------------------------------------------------

  /**
   When a mail to the admins goes out: Slack has failed and was not known to fail, the last mail about the rule is an hour
   old or there was none, and there is somebody to write to.
   */
  predicate MailIsDue(previous: Status, d: Delivery) {
    && d.results.slack == Some(false) && previous.slack != Some(false) && MailFits(previous, d)
  }

  predicate MailFits(previous: Status, d: Delivery) {
    && (previous.notice.Some? ==> d.now - previous.notice.value >= 3600)
    && d.recipients.Some? && d.recipients.value > 0 && !d.mailRaises
  }

  /**
   A notification is sent, and a mail goes to the admins exactly when one is due. In memory, and in the database when it
   can be written, each channel that was tried has its new result and any other the one it had; the time of a mail is kept
   in both, or in neither. No event changes.
   */
  lemma NotifySays(w: World, c: Change, d: Delivery)
    ensures var w', rule := Notify(w, c, d), c.pair.rule;
            var memory, stored := StatusOf(w.memory, rule), StatusOf(w.stored, rule);
            var due := MailIsDue(memory, d);
            && w'.sent == w.sent + [c] && w'.events == w.events && w'.changes == w.changes && w'.offline == w.offline
            && w'.notices == w.notices + (if due then [Notice(rule, d.now, d.noticeWritten)] else [])
            && StatusOf(w'.memory, rule) == Status(if d.results.email.Some? then d.results.email else memory.email,
                                                   if d.results.slack.Some? then d.results.slack else memory.slack,
                                                   if due && d.noticeWritten then Some(d.now) else memory.notice)
            && StatusOf(w'.stored, rule) == Status(if d.statusWritten && d.results.email.Some? then d.results.email else stored.email,
                                                   if d.statusWritten && d.results.slack.Some? then d.results.slack else stored.slack,
                                                   if due && d.noticeWritten then Some(d.now) else stored.notice)
  {
  }

  // ----- Memory and database agree -------------------------------------------------------------------

  ghost predicate Agrees(w: World, rule: nat) { StatusOf(w.memory, rule) == StatusOf(w.stored, rule) }

  /**
   Within a cycle the status in memory goes on agreeing with the stored one exactly when the result was written,
   or was nothing new; the time of the last mail to the admins agrees in any case.
   */
  lemma AgreementIff(w: World, c: Change, d: Delivery)
    requires Agrees(w, c.pair.rule)
    ensures var rule := c.pair.rule;
            && (Agrees(Notify(w, c, d), rule) <==> d.statusWritten || Merge(StatusOf(w.stored, rule), d.results) == StatusOf(w.stored, rule))
            && StatusOf(Notify(w, c, d).memory, rule).notice == StatusOf(Notify(w, c, d).stored, rule).notice
  {
  }

  lemma OthersStay(w: World, c: Change, d: Delivery, rule: nat)
    requires rule != c.pair.rule
    ensures StatusOf(Notify(w, c, d).memory, rule) == StatusOf(w.memory, rule)
    ensures StatusOf(Notify(w, c, d).stored, rule) == StatusOf(w.stored, rule)
  {
  }

  ghost predicate AllAgree(w: World) { forall rule: nat :: Agrees(w, rule) }

  lemma NotifyAgrees(w: World, c: Change, d: Delivery)
    requires AllAgree(w) && d.statusWritten
    ensures AllAgree(Notify(w, c, d))
  {
    forall rule: nat ensures Agrees(Notify(w, c, d), rule) {
      assert Agrees(w, rule);
      if rule == c.pair.rule { AgreementIff(w, c, d); } else { OthersStay(w, c, d, rule); }
    }
  }

  predicate ResultWritten(t: Turn) { t.Judge? ==> t.delivery.statusWritten }

  lemma {:induction false} TurnsAgree(w: World, turns: seq<Turn>, budget: nat)
    requires AllAgree(w) && forall k :: 0 <= k < |turns| ==> ResultWritten(turns[k])
    ensures AllAgree(TakeTurns(w, turns, budget).world)
    decreases |turns|
  {
    hide Notify;
    hide TakeTurn;
    if turns != [] {
      var t, p := turns[0], TakeTurn(w, turns[0], budget);
      assert ResultWritten(t);
      TurnTellsOnce(w, t, budget);
      if !SameStatuses(w, p.world) { NotifyAgrees(w, Change(t.pair, !t.verdict.value), t.delivery); }
      forall rule: nat ensures Agrees(p.world, rule) {
        assert SameStatuses(w, p.world) ==> Agrees(w, rule);
        assert !SameStatuses(w, p.world) ==> Agrees(Notify(w, Change(t.pair, !t.verdict.value), t.delivery), rule);
      }
      if p.goesOn { TurnsAgree(p.world, turns[1..], p.left); }
    }
  }

  /** While the results are written, memory and database agree on every status, in every state and wherever a cycle is cut. */
  lemma {:induction false} WrittenRunsAgree(cycles: seq<Cycle>)
    requires forall k, i :: 0 <= k < |cycles| && 0 <= i < |TurnsOf(cycles[k])| ==> ResultWritten(TurnsOf(cycles[k])[i])
    ensures AllAgree(Run(BLANK, cycles))
    decreases |cycles|
  {
    if cycles != [] {
      WrittenRunsAgree(cycles[..|cycles| - 1]);
      TurnsAgree(Reload(Run(BLANK, cycles[..|cycles| - 1])), TurnsOf(cycles[|cycles| - 1]), cycles[|cycles| - 1].budget);
    }
  }

  // ----- An hour between mails -----------------------------------------------------------------------

  /** The last recorded mail is known to memory and database alike, at or after every recorded one. */
  ghost predicate Remembered(w: World, k: int)
    requires 0 <= k < |w.notices|
  {
    var n := w.notices[k];
    n.recorded ==> (StatusOf(w.memory, n.rule).notice.Some? && StatusOf(w.memory, n.rule).notice.value >= n.at)
  }

  ghost predicate Spaced(w: World) {
    && (forall rule: nat :: StatusOf(w.memory, rule).notice == StatusOf(w.stored, rule).notice)
    && (forall k :: 0 <= k < |w.notices| ==> Remembered(w, k))
    && (forall i, j :: 0 <= i < j < |w.notices| && w.notices[i].rule == w.notices[j].rule && w.notices[i].recorded ==>
          w.notices[j].at - w.notices[i].at >= COOLDOWN)
  }

  lemma NotifySpaced(w: World, c: Change, d: Delivery)
    requires Spaced(w)
    ensures Spaced(Notify(w, c, d))
  {
    var w' := Notify(w, c, d);
    assert StatusOf(w.memory, c.pair.rule).notice == StatusOf(w.stored, c.pair.rule).notice;
    forall rule: nat ensures StatusOf(w'.memory, rule).notice == StatusOf(w'.stored, rule).notice {
      assert StatusOf(w.memory, rule).notice == StatusOf(w.stored, rule).notice;
    }
    forall k | 0 <= k < |w'.notices| ensures Remembered(w', k) {
      if k < |w.notices| { assert Remembered(w, k); }
    }
    forall i, j | 0 <= i < j < |w'.notices| && w'.notices[i].rule == w'.notices[j].rule && w'.notices[i].recorded
      ensures w'.notices[j].at - w'.notices[i].at >= COOLDOWN
    {
      assert Remembered(w, i);
    }
  }

  /** What a turn does to statuses and mails it does by notifying, once at most. */
  predicate SameStatuses(w: World, w': World) { w'.stored == w.stored && w'.memory == w.memory && w'.notices == w.notices }

  /** A turn notifies exactly when it changes an event and is not cut before. */
  lemma TurnTellsOnce(w: World, t: Turn, budget: nat)
    ensures var w' := TakeTurn(w, t, budget).world;
            if t.Judge? && AlertRuns.ChangesEvent(w, t) && budget >= 3
            then SameStatuses(Notify(w, Change(t.pair, !t.verdict.value), t.delivery), w')
            else SameStatuses(w, w')
  {
    hide Notify;
    if t.Judge? && AlertRuns.ChangesEvent(w, t) && budget >= 3 {
      var c, open := Change(t.pair, !t.verdict.value), FindOpen(w.events, t.pair);
      if t.verdict.value {
        NotifyIgnoresEvents(w, Opened(w, t.pair), c, t.delivery);
      } else {
        NotifyIgnoresEvents(w, Resolved(w, open.value), c, t.delivery);
      }
    }
  }

  lemma NotifyIgnoresEvents(w: World, w1: World, c: Change, d: Delivery)
    requires SameStatuses(w, w1)
    ensures SameStatuses(Notify(w, c, d), Notify(w1, c, d))
    ensures Notify(w1, c, d).events == w1.events
  {
  }

  lemma SpacedSame(w: World, w': World)
    requires Spaced(w) && SameStatuses(w, w')
    ensures Spaced(w')
  {
    forall k | 0 <= k < |w'.notices| ensures Remembered(w', k) { assert Remembered(w, k); }
  }

  lemma {:induction false} TurnsSpaced(w: World, turns: seq<Turn>, budget: nat)
    requires Spaced(w)
    ensures Spaced(TakeTurns(w, turns, budget).world)
    decreases |turns|
  {
    hide Spaced;
    hide Notify;
    hide TakeTurn;
    if turns != [] {
      var t, p := turns[0], TakeTurn(w, turns[0], budget);
      TurnTellsOnce(w, t, budget);
      if SameStatuses(w, p.world) {
        SpacedSame(w, p.world);
      } else {
        NotifySpaced(w, Change(t.pair, !t.verdict.value), t.delivery);
        SpacedSame(Notify(w, Change(t.pair, !t.verdict.value), t.delivery), p.world);
      }
      if p.goesOn { TurnsSpaced(p.world, turns[1..], p.left); }
    }
  }

  lemma ReloadSpaced(w: World)
    requires Spaced(w)
    ensures Spaced(Reload(w))
  {
    forall k | 0 <= k < |w.notices| ensures Remembered(Reload(w), k) {
      assert Remembered(w, k);
      assert StatusOf(w.memory, w.notices[k].rule).notice == StatusOf(w.stored, w.notices[k].rule).notice;
    }
  }

  lemma {:induction false} RunSpaced(cycles: seq<Cycle>)
    ensures Spaced(Run(BLANK, cycles))
    decreases |cycles|
  {
    if cycles != [] {
      RunSpaced(cycles[..|cycles| - 1]);
      ReloadSpaced(Run(BLANK, cycles[..|cycles| - 1]));
      TurnsSpaced(Reload(Run(BLANK, cycles[..|cycles| - 1])), TurnsOf(cycles[|cycles| - 1]), cycles[|cycles| - 1].budget);
    }
  }

  /**
   Over any run - the clock may even go back, other writes may fail, cycles may be cut - a mail to the admins about a
   rule comes at least an hour after every earlier one whose time was recorded.
   */
  lemma NoticesAnHourApart(cycles: seq<Cycle>, i: nat, j: nat)
    requires i < j < |Run(BLANK, cycles).notices|
    requires Run(BLANK, cycles).notices[i].rule == Run(BLANK, cycles).notices[j].rule && Run(BLANK, cycles).notices[i].recorded
    ensures Run(BLANK, cycles).notices[j].at - Run(BLANK, cycles).notices[i].at >= 3600
  {
    RunSpaced(cycles);
  }

  // ----- One mail for a stretch of failures ----------------------------------------------------------

  function MailsAbout(notices: seq<Notice>, rule: nat): nat {
    if notices == [] then 0
    else MailsAbout(notices[..|notices| - 1], rule) + if notices[|notices| - 1].rule == rule then 1 else 0
  }

  /** Slack does not succeed for the rule in this turn, and the result is written. */
  predicate Failing(t: Turn, rule: nat) {
    t.Judge? && t.pair.rule == rule ==> t.delivery.results.slack != Some(true) && t.delivery.statusWritten
  }

  predicate KnownFailing(w: World, rule: nat) { StatusOf(w.memory, rule).slack == Some(false) }

  /** In this turn a notification about the rule goes out, and Slack fails. */
  predicate TellsOfFailure(w: World, t: Turn, budget: nat, rule: nat) {
    t.Judge? && t.pair.rule == rule && AlertRuns.ChangesEvent(w, t) && budget >= 3 && t.delivery.results.slack == Some(false)
  }

  /** What a turn of a stretch adds: a mail, when it turns to failing then and one fits; and from then on that is known. */
  lemma TurnMails(w: World, t: Turn, budget: nat, rule: nat)
    requires Failing(t, rule) && StatusOf(w.memory, rule).slack == StatusOf(w.stored, rule).slack
    ensures var w' := TakeTurn(w, t, budget).world;
            && StatusOf(w'.memory, rule).slack == StatusOf(w'.stored, rule).slack
            && (KnownFailing(w', rule) <==> KnownFailing(w, rule) || TellsOfFailure(w, t, budget, rule))
            && MailsAbout(w'.notices, rule)
               == MailsAbout(w.notices, rule)
                  + if TellsOfFailure(w, t, budget, rule) && !KnownFailing(w, rule) && MailFits(StatusOf(w.memory, rule), t.delivery) then 1 else 0
  {
    hide Notify;
    hide MailFits;
    hide TakeTurn;
    TurnTellsOnce(w, t, budget);
    if t.Judge? && AlertRuns.ChangesEvent(w, t) && budget >= 3 {
      var c := Change(t.pair, !t.verdict.value);
      NotifySays(w, c, t.delivery);
      if rule != t.pair.rule { OthersStay(w, c, t.delivery, rule); }
      MailsPlus(w.notices, Notice(t.pair.rule, t.delivery.now, t.delivery.noticeWritten), rule);
      assert w.notices + [] == w.notices;
      var slack := t.delivery.results.slack;
      assert slack.Some? ==> slack == Some(slack.value);
      assert t.pair.rule == rule && slack.Some? ==> !slack.value;
    }
  }

  lemma MailsPlus(notices: seq<Notice>, n: Notice, rule: nat)
    ensures MailsAbout(notices + [n], rule) == MailsAbout(notices, rule) + if n.rule == rule then 1 else 0
  {
    assert (notices + [n])[..|notices|] == notices;
  }

  /** The first notification about the rule that Slack fails: whether there is one, and whether a mail fits then. */
  function FirstFailure(w: World, turns: seq<Turn>, budget: nat, rule: nat): Option<bool>
    decreases |turns|
  {
    if turns == [] then None
    else if TellsOfFailure(w, turns[0], budget, rule) then Some(MailFits(StatusOf(w.memory, rule), turns[0].delivery))
    else
      var p := TakeTurn(w, turns[0], budget);
      if p.goesOn then FirstFailure(p.world, turns[1..], p.left, rule) else None
  }

  lemma {:induction false} TurnsMail(w: World, turns: seq<Turn>, budget: nat, rule: nat)
    requires forall k :: 0 <= k < |turns| ==> Failing(turns[k], rule)
    requires StatusOf(w.memory, rule).slack == StatusOf(w.stored, rule).slack
    ensures var w', first := TakeTurns(w, turns, budget).world, FirstFailure(w, turns, budget, rule);
            && StatusOf(w'.memory, rule).slack == StatusOf(w'.stored, rule).slack
            && (KnownFailing(w', rule) <==> KnownFailing(w, rule) || first.Some?)
            && MailsAbout(w'.notices, rule) == MailsAbout(w.notices, rule) + if !KnownFailing(w, rule) && first == Some(true) then 1 else 0
    decreases |turns|
  {
    hide TakeTurn;
    hide TellsOfFailure;
    hide MailFits;
    hide MailsAbout;
    hide KnownFailing;
    if turns != [] {
      var t, p := turns[0], TakeTurn(w, turns[0], budget);
      assert Failing(t, rule);
      TurnMails(w, t, budget, rule);
      if p.goesOn { TurnsMail(p.world, turns[1..], p.left, rule); }
    }
  }

  /** The same over a stretch of cycles. */
  function FirstFailureIn(w: World, cycles: seq<Cycle>, rule: nat): Option<bool> {
    if cycles == [] then None
    else
      var rest, c := cycles[..|cycles| - 1], cycles[|cycles| - 1];
      var before := FirstFailureIn(w, rest, rule);
      if before.Some? then before else FirstFailure(Reload(Run(w, rest)), TurnsOf(c), c.budget, rule)
  }

  lemma {:induction false} StretchMails(w: World, cycles: seq<Cycle>, rule: nat)
    requires forall k, i :: 0 <= k < |cycles| && 0 <= i < |TurnsOf(cycles[k])| ==> Failing(TurnsOf(cycles[k])[i], rule)
    ensures var w', known, first := Reload(Run(w, cycles)), StatusOf(w.stored, rule).slack == Some(false), FirstFailureIn(w, cycles, rule);
            && (KnownFailing(w', rule) <==> known || first.Some?)
            && MailsAbout(w'.notices, rule) == MailsAbout(w.notices, rule) + if !known && first == Some(true) then 1 else 0
    decreases |cycles|
  {
    hide MailsAbout;
    hide FirstFailure;
    if cycles != [] {
      var rest, c := cycles[..|cycles| - 1], cycles[|cycles| - 1];
      StretchMails(w, rest, rule);
      TurnsMail(Reload(Run(w, rest)), TurnsOf(c), c.budget, rule);
    }
  }

  /**
   Through any stretch of cycles in which Slack never succeeds for a rule and the results are written, one mail goes to
   the admins about it or none: one exactly when Slack was not known to be failing before, it fails in the stretch, and
   the first time it does a mail fits - the last one is an hour old, and there is somebody to write to.
   */
  lemma OneMailPerStretch(w: World, cycles: seq<Cycle>, rule: nat)
    requires forall k, i :: 0 <= k < |cycles| && 0 <= i < |TurnsOf(cycles[k])| ==> Failing(TurnsOf(cycles[k])[i], rule)
    ensures var known := StatusOf(w.stored, rule).slack == Some(false);
            MailsAbout(Run(w, cycles).notices, rule)
            == MailsAbout(w.notices, rule) + if !known && FirstFailureIn(w, cycles, rule) == Some(true) then 1 else 0
  {
    StretchMails(w, cycles, rule);
  }

  // ----- Whom the mail goes to -----------------------------------------------------------------------

  const MAX_RECIPIENTS := 10

  /** The wanted addresses in order, each once: normal form, not empty, deliverable, not listed before. */
  function Wanted(emails: seq<string>, normal: string -> string, deliverable: string -> bool): (out: seq<string>)
    ensures forall a :: a in out <==> a != "" && deliverable(a) && exists i :: 0 <= i < |emails| && normal(emails[i]) == a
    ensures forall i, j :: 0 <= i < j < |out| ==> out[i] != out[j]
  {
    if emails == [] then []
    else
      var before, a := Wanted(emails[..|emails| - 1], normal, deliverable), normal(emails[|emails| - 1]);
      assert forall i :: 0 <= i < |emails| - 1 ==> emails[..|emails| - 1][i] == emails[i];
      if a == "" || a in before || !deliverable(a) then before else before + [a]
  }

  lemma {:induction false} WantedGrows(emails: seq<string>, n: nat, normal: string -> string, deliverable: string -> bool)
    requires n <= |emails|
    ensures Wanted(emails[..n], normal, deliverable) <= Wanted(emails, normal, deliverable)
    decreases |emails|
  {
    if n == |emails| {
      assert emails[..n] == emails;
    } else {
      var rest := emails[..|emails| - 1];
      WantedGrows(rest, n, normal, deliverable);
      assert rest[..n] == emails[..n];
    }
  }

  /** The first ten of them. */
  method FilterDeliverable(emails: seq<string>, normal: string -> string, deliverable: string -> bool) returns (out: seq<string>)
    ensures var wanted := Wanted(emails, normal, deliverable);
            out == if |wanted| <= 10 then wanted else wanted[..10]
  {
    out := [];
    var seen: set<string> := {};
    for i := 0 to |emails|
      invariant out == Wanted(emails[..i], normal, deliverable) && |out| < MAX_RECIPIENTS
      invariant forall a :: a in seen <==> a in out
    {
      assert emails[..i + 1][..i] == emails[..i];
      WantedGrows(emails, i + 1, normal, deliverable);
      var a := normal(emails[i]);
      if a == "" || a in seen || !deliverable(a) { continue; }
      seen := seen + {a};
      out := out + [a];
      if |out| >= MAX_RECIPIENTS { return; }
    }
    assert emails[..|emails|] == emails;
  }
}
