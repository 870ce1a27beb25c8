/** The alert service as it runs: one pass over the rules, one over the devices that have gone silent. */
module AlertEngine {
  import opened Basics
  import opened Alerts

  class Engine {
    var events: seq<Event>
    var stored: Statuses
    var memory: Statuses
    var offline: set<nat>
    ghost var changes: seq<Change>
    ghost var sent: seq<Change>
    ghost var notices: seq<Notice>

    ghost function Contents(): World
      reads this
    {
      World(events, stored, memory, offline, changes, sent, notices)
    }

    constructor ()
      ensures Contents() == BLANK
    {
      events, stored, memory, offline := [], map[], map[], {};
      changes, sent, notices := [], [], [];
    }

    // ----- The tables --------------------------------------------------------------------------------

    /** The latest unresolved event, looked for from the end. */
    method GetUnresolvedEvent(pair: Pair) returns (found: Option<nat>)
      ensures found == FindOpen(events, pair)
    {
      var n: nat := |events|;
      assert events[..n] == events;
      while n > 0
        invariant n <= |events| && FindOpen(events, pair) == FindOpen(events[..n], pair)
      {
        assert events[..n][..n - 1] == events[..n - 1];
        n := n - 1;
        if events[n].pair == pair && !events[n].resolved { return Some(n); }
      }
      return None;
    }

    method CreateAlertEvent(pair: Pair) returns (id: nat)
      modifies `events, `changes
      ensures Contents() == Opened(old(Contents()), pair) && id == |old(events)|
    {
      id := |events|;
      events := events + [Event(pair, false, false)];
      changes := changes + [Change(pair, false)];
    }

    method ResolveAlertEvent(id: nat)
      requires id < |events|
      modifies `events, `changes
      ensures Contents() == Resolved(old(Contents()), id)
    {
      changes := changes + [Change(events[id].pair, true)];
      events := events[id := events[id].(resolved := true)];
    }

    method MarkEventNotified(id: nat)
      requires id < |events|
      modifies `events
      ensures Contents() == Marked(old(Contents()), id)
    {
      events := events[id := events[id].(notified := true)];
    }

    /** Overwrites the channels that were tried, and only those. */
    method RecordNotifyStatus(rule: nat, r: Results)
      modifies `stored
      ensures stored == Written(old(stored), rule, r)
    {
      if r.email.None? && r.slack.None? { return; }
      var s := StatusOf(stored, rule);
      if r.email.Some? { s := s.(email := r.email); }
      if r.slack.Some? { s := s.(slack := r.slack); }
      stored := stored[rule := s];
    }

    /** Sets the time of the mail to the admins: both channels keep their results, and no other rule changes. */
    method RecordAdminNotice(rule: nat, at: int)
      modifies `stored
      ensures rule in stored && StatusOf(stored, rule).notice == Some(at)
      ensures StatusOf(stored, rule).slack == StatusOf(old(stored), rule).slack && StatusOf(stored, rule).email == StatusOf(old(stored), rule).email
      ensures forall other :: other != rule ==> (other in stored <==> other in old(stored)) && StatusOf(stored, other) == StatusOf(old(stored), other)
    {
      stored := stored[rule := StatusOf(stored, rule).(notice := Some(at))];
    }

    /** Carries a result, or the time of a mail, over to the next notification of the same pass. */
    method MergeLocalStatus(rule: nat, r: Option<Results>, at: Option<int>)
      modifies `memory
      ensures memory == old(memory)[rule := var s := if r.Some? then Merge(StatusOf(old(memory), rule), r.value) else StatusOf(old(memory), rule);
                                            if at.Some? then s.(notice := at) else s]
    {
      var s := StatusOf(memory, rule);
      if r.Some? {
        if r.value.email.Some? { s := s.(email := r.value.email); }
        if r.value.slack.Some? { s := s.(slack := r.value.slack); }
      }
      if at.Some? { s := s.(notice := at); }
      memory := memory[rule := s];
    }

    // ----- A notification ----------------------------------------------------------------------------

    method NotifyAndRecord(c: Change, d: Delivery)
      modifies this
      ensures Contents() == Notify(old(Contents()), c, d)
    {
      var previous := StatusOf(memory, c.pair.rule);
      sent := sent + [c];
      if d.statusWritten { RecordNotifyStatus(c.pair.rule, d.results); }
      MergeLocalStatus(c.pair.rule, Some(d.results), None);
      NotifyAdminsOfFailure(c.pair.rule, d, previous);
    }

    /** The mail to the admins; its time is recorded in the database first, and in memory only if that went well. */
    method NotifyAdminsOfFailure(rule: nat, d: Delivery, previous: Status)
      requires rule in memory
      modifies `stored, `memory, `notices
      ensures if !MailGoesOut(previous, d) then stored == old(stored) && memory == old(memory) && notices == old(notices)
              else
                && notices == old(notices) + [Notice(rule, d.now, d.noticeWritten)]
                && stored == (if d.noticeWritten then old(stored)[rule := StatusOf(old(stored), rule).(notice := Some(d.now))] else old(stored))
                && memory == (if d.noticeWritten then old(memory)[rule := old(memory)[rule].(notice := Some(d.now))] else old(memory))
    {
      if d.results.slack != Some(false) { return; }
      if previous.slack == Some(false) { return; }
      if previous.notice.Some? && d.now - previous.notice.value < COOLDOWN { return; }
      if d.recipients.None? || d.recipients.value == 0 || d.mailRaises { return; }
      notices := notices + [Notice(rule, d.now, d.noticeWritten)];
      if !d.noticeWritten { return; }
      RecordAdminNotice(rule, d.now);
      MergeLocalStatus(rule, None, Some(d.now));
    }

    // ----- One rule ----------------------------------------------------------------------------------

    /** Opens an event and tells about it, or resolves the open one and tells about that; stops where the budget ends. */
    method JudgeRule(pair: Pair, verdict: Option<bool>, d: Delivery, budget: nat) returns (left: nat, goesOn: bool)
      modifies this
      ensures Part(Contents(), left, goesOn) == TakeTurn(old(Contents()), Judge(pair, verdict, d), budget)
    {
      if verdict.None? { return budget, true; }
      if budget == 0 { return 0, false; }
      var existing := GetUnresolvedEvent(pair);
      if verdict.value && existing.None? {
        if budget == 1 { return 0, false; }
        var id := CreateAlertEvent(pair);
        if budget == 2 { return 0, false; }
        NotifyAndRecord(Change(pair, false), d);
        if budget == 3 { return 0, false; }
        MarkEventNotified(id);
        return budget - 4, true;
      } else if !verdict.value && existing.Some? {
        if budget == 1 { return 0, false; }
        ResolveAlertEvent(existing.value);
        if budget == 2 { return 0, false; }
        NotifyAndRecord(Change(pair, true), d);
        return budget - 3, true;
      }
      return budget - 1, true;
    }

    // ----- The passes --------------------------------------------------------------------------------

    method EvaluateTenant(rules: seq<Rule>, verdict: nat -> Option<bool>, deliver: Pair -> Delivery, budget: nat)
      returns (left: nat, goesOn: bool)
      modifies this
      ensures Part(Contents(), left, goesOn) == RunCycle(old(Contents()), Readings(rules, verdict, deliver, budget))
    {
      hide TakeTurn;
      memory := stored;
      left, goesOn := budget, true;
      ghost var start := Contents();
      assert rules[0..] == rules;
      for i := 0 to |rules|
        invariant goesOn
        invariant TakeTurns(Contents(), RuleTurns(rules[i..], verdict, deliver), left)
               == TakeTurns(start, RuleTurns(rules, verdict, deliver), budget)
      {
        assert rules[i..][0] == rules[i] && rules[i..][1..] == rules[i + 1..];
        if rules[i].offline { continue; }
        var pair := Pair(rules[i].id, rules[i].device);
        assert RuleTurns(rules[i..], verdict, deliver)[1..] == RuleTurns(rules[i + 1..], verdict, deliver);
        left, goesOn := JudgeRule(pair, verdict(rules[i].id), deliver(pair), left);
        if !goesOn { return; }
      }
    }

    method CheckDeadDevices(devices: seq<nat>, rules: seq<Rule>, members: nat -> seq<nat>, deliver: Pair -> Delivery, budget: nat)
      returns (left: nat, goesOn: bool)
      modifies this
      ensures Part(Contents(), left, goesOn) == RunCycle(old(Contents()), Silence(devices, rules, members, deliver, budget))
    {
      hide TakeTurn;
      memory := stored;
      left, goesOn := budget, true;
      ghost var start := Contents();
      assert devices[0..] == devices;
      for i := 0 to |devices|
        invariant goesOn
        invariant TakeTurns(Contents(), DeviceTurns(devices[i..], rules, members, deliver), left)
               == TakeTurns(start, DeviceTurns(devices, rules, members, deliver), budget)
      {
        ghost var rest := DeviceTurns(devices[i + 1..], rules, members, deliver);
        ghost var watchers := WatcherTurns(devices[i], rules, members, deliver);
        assert devices[i..][0] == devices[i] && devices[i..][1..] == devices[i + 1..];
        assert ([MarkOffline(devices[i])] + watchers + rest)[1..] == watchers + rest;
        left, goesOn := SetOffline(devices[i], left);
        if !goesOn { return; }
        left, goesOn := AlertWatchers(devices[i], rules, members, deliver, left, rest);
        if !goesOn { return; }
      }
    }

    method SetOffline(device: nat, budget: nat) returns (left: nat, goesOn: bool)
      modifies `offline
      ensures Part(Contents(), left, goesOn) == TakeTurn(old(Contents()), MarkOffline(device), budget)
    {
      if budget == 0 { return 0, false; }
      offline := offline + {device};
      return budget - 1, true;
    }

    /** One silent device against all rules; the rest of the pass comes after. */
    method AlertWatchers(device: nat, rules: seq<Rule>, members: nat -> seq<nat>, deliver: Pair -> Delivery, budget: nat, ghost rest: seq<Turn>)
      returns (left: nat, goesOn: bool)
      modifies this
      ensures if goesOn then TakeTurns(Contents(), rest, left) == TakeTurns(old(Contents()), WatcherTurns(device, rules, members, deliver) + rest, budget)
              else Part(Contents(), left, goesOn) == TakeTurns(old(Contents()), WatcherTurns(device, rules, members, deliver) + rest, budget)
    {
      hide TakeTurn;
      left, goesOn := budget, true;
      ghost var all := TakeTurns(Contents(), WatcherTurns(device, rules, members, deliver) + rest, budget);
      assert rules[0..] == rules;
      for i := 0 to |rules|
        invariant goesOn
        invariant TakeTurns(Contents(), WatcherTurns(device, rules[i..], members, deliver) + rest, left) == all
      {
        ghost var later := WatcherTurns(device, rules[i + 1..], members, deliver);
        assert rules[i..][0] == rules[i] && rules[i..][1..] == rules[i + 1..];
        var r := rules[i];
        if !r.offline { continue; }
        if r.device.Some? && r.device.value != device { continue; }
        if r.group.Some? && device !in members(r.group.value) { continue; }
        var pair := Pair(r.id, Some(device));
        assert ([Judge(pair, Some(true), deliver(pair))] + later + rest)[1..] == later + rest;
        left, goesOn := JudgeRule(pair, Some(true), deliver(pair), left);
        if !goesOn { return; }
      }
      assert WatcherTurns(device, rules[|rules|..], members, deliver) + rest == rest;
    }
  }
}
