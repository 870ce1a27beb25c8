/**
 The alert service's cycle for one tenant: events that open and resolve, the notifications about them, and the
 delivery status of each rule, which the cycle keeps in memory and in the database. A cycle may stop between any
 two of its effects, as a budget says; what the outside does - verdicts, deliveries, failing writes - is input.
 */
module Alerts {
  import opened Basics

  /** A rule, and the device it is about; none for a rule about a group or about all devices. */
  datatype Pair = Pair(rule: nat, device: Option<nat>)

  datatype Event = Event(pair: Pair, resolved: bool, notified: bool)

  /** The delivery status of a rule: whether each channel's last attempt went well, and when admins were last told. */
  datatype Status = Status(email: Option<bool>, slack: Option<bool>, notice: Option<int>)

  const UNTRIED := Status(None, None, None)

  type Statuses = map<nat, Status>

  function StatusOf(m: Statuses, rule: nat): Status { if rule in m then m[rule] else UNTRIED }

  /** One notification's results by channel; a channel that is not configured has none. */
  datatype Results = Results(email: Option<bool>, slack: Option<bool>)

  /** How a notification goes: its results, the clock, and which of the later steps fail. */
  datatype Delivery =
    Delivery(results: Results, now: int, statusWritten: bool, recipients: Option<nat>, mailRaises: bool, noticeWritten: bool)

  /** An event of the pair opened, or resolved. */
  datatype Change = Change(pair: Pair, resolved: bool)

  /** A mail to the admins, and whether its time was recorded. */
  datatype Notice = Notice(rule: nat, at: int, recorded: bool)

  /**
   The database and the memory of the running cycle, with three logs that nothing stores: every change of an event,
   every notification sent, every mail to the admins.
   */
  datatype World =
    World(events: seq<Event>, stored: Statuses, memory: Statuses, offline: set<nat>,
          changes: seq<Change>, sent: seq<Change>, notices: seq<Notice>)

  /** Only the channels that were tried are overwritten. */
  function Merge(s: Status, r: Results): Status {
    Status(if r.email.Some? then r.email else s.email, if r.slack.Some? then r.slack else s.slack, s.notice)
  }

  /** The update of the stored status; nothing is written when no channel was tried. */
  function Written(stored: Statuses, rule: nat, r: Results): Statuses {
    if r == Results(None, None) then stored else stored[rule := Merge(StatusOf(stored, rule), r)]
  }

  const COOLDOWN := 3600

  /** Slack has just turned to failing, and the admins were not told within the hour. */
  predicate TellsAdmins(previous: Status, r: Results, now: int) {
    && r.slack == Some(false) && previous.slack != Some(false)
    && (previous.notice.None? || now - previous.notice.value >= COOLDOWN)
  }

  predicate MailGoesOut(previous: Status, d: Delivery) {
    TellsAdmins(previous, d.results, d.now) && d.recipients.Some? && d.recipients.value > 0 && !d.mailRaises
  }

  /** Sending a notification, recording how it went, and telling the admins when Slack has turned to failing. */
  function Notify(w: World, c: Change, d: Delivery): World {
    var rule := c.pair.rule;
    var previous := StatusOf(w.memory, rule);
    var stored := if d.statusWritten then Written(w.stored, rule, d.results) else w.stored;
    var memory := w.memory[rule := Merge(previous, d.results)];
    var w' := w.(stored := stored, memory := memory, sent := w.sent + [c]);
    if !MailGoesOut(previous, d) then w'
    else if !d.noticeWritten then w'.(notices := w.notices + [Notice(rule, d.now, false)])
    else w'.(stored := stored[rule := StatusOf(stored, rule).(notice := Some(d.now))],
             memory := memory[rule := memory[rule].(notice := Some(d.now))],
             notices := w.notices + [Notice(rule, d.now, true)])
  }

  // ----- Events --------------------------------------------------------------------------------------

  predicate IsOpen(e: Event, pair: Pair) { e.pair == pair && !e.resolved }

  /** The latest unresolved event of the pair. */
  function FindOpen(events: seq<Event>, pair: Pair): (found: Option<nat>)
    ensures found.Some? ==> found.value < |events| && IsOpen(events[found.value], pair)
    ensures found.Some? ==> forall i :: found.value < i < |events| ==> !IsOpen(events[i], pair)
    ensures found.None? <==> forall i :: 0 <= i < |events| ==> !IsOpen(events[i], pair)
  {
    if events == [] then None
    else if IsOpen(events[|events| - 1], pair) then Some(|events| - 1)
    else FindOpen(events[..|events| - 1], pair)
  }

  function Opened(w: World, pair: Pair): World {
    w.(events := w.events + [Event(pair, false, false)], changes := w.changes + [Change(pair, false)])
  }

  function Resolved(w: World, i: nat): World
    requires i < |w.events|
  {
    w.(events := w.events[i := w.events[i].(resolved := true)], changes := w.changes + [Change(w.events[i].pair, true)])
  }

  function Marked(w: World, i: nat): World
    requires i < |w.events|
  {
    w.(events := w.events[i := w.events[i].(notified := true)])
  }

  /** What is left after part of a cycle: the world, the budget, and whether the cycle goes on. */
  datatype Part = Part(world: World, left: nat, goesOn: bool)

  function Raise(w: World, pair: Pair, d: Delivery, budget: nat): Part
    requires FindOpen(w.events, pair).None?
  {
    var w1 := Opened(w, pair);
    var w2 := Notify(w1, Change(pair, false), d);
    if budget == 0 then Part(w, 0, false)
    else if budget == 1 then Part(w1, 0, false)
    else if budget == 2 then Part(w2, 0, false)
    else Part(Marked(w2, |w.events|), budget - 3, true)
  }

  function Lower(w: World, pair: Pair, d: Delivery, budget: nat): Part
    requires FindOpen(w.events, pair).Some?
  {
    var w1 := Resolved(w, FindOpen(w.events, pair).value);
    if budget == 0 then Part(w, 0, false)
    else if budget == 1 then Part(w1, 0, false)
    else Part(Notify(w1, Change(pair, true), d), budget - 2, true)
  }

  /** One step of a cycle: a verdict about a pair - none when the evaluation failed - or a device found offline. */
  datatype Turn = Judge(pair: Pair, verdict: Option<bool>, delivery: Delivery) | MarkOffline(device: nat)

  function TakeTurn(w: World, t: Turn, budget: nat): Part {
    match t
    case MarkOffline(device) =>
      if budget == 0 then Part(w, 0, false) else Part(w.(offline := w.offline + {device}), budget - 1, true)
    case Judge(pair, verdict, d) =>
      if verdict.None? then Part(w, budget, true)
      else if budget == 0 then Part(w, 0, false)
      else
        var open := FindOpen(w.events, pair);
        if verdict.value && open.None? then Raise(w, pair, d, budget - 1)
        else if !verdict.value && open.Some? then Lower(w, pair, d, budget - 1)
        else Part(w, budget - 1, true)
  }

  function TakeTurns(w: World, turns: seq<Turn>, budget: nat): Part
    decreases |turns|
  {
    if turns == [] then Part(w, budget, true)
    else
      var p := TakeTurn(w, turns[0], budget);
      if p.goesOn then TakeTurns(p.world, turns[1..], p.left) else p
  }

  // ----- Cycles --------------------------------------------------------------------------------------

  datatype Rule = Rule(id: nat, device: Option<nat>, group: Option<nat>, offline: bool)

  /** The pass over the rules about readings; rules about offline devices are passed over. */
  function RuleTurns(rules: seq<Rule>, verdict: nat -> Option<bool>, deliver: Pair -> Delivery): seq<Turn> {
    if rules == [] then []
    else
      var r, rest := rules[0], RuleTurns(rules[1..], verdict, deliver);
      if r.offline then rest else [Judge(Pair(r.id, r.device), verdict(r.id), deliver(Pair(r.id, r.device)))] + rest
  }

  /** An offline rule is about the device it names, the members of its group, or any device. */
  predicate Watches(r: Rule, device: nat, members: nat -> seq<nat>) {
    && r.offline
    && (r.device.Some? ==> r.device.value == device)
    && (r.group.Some? ==> device in members(r.group.value))
  }

  function WatcherTurns(device: nat, rules: seq<Rule>, members: nat -> seq<nat>, deliver: Pair -> Delivery): seq<Turn> {
    if rules == [] then []
    else
      var rest := WatcherTurns(device, rules[1..], members, deliver);
      var pair := Pair(rules[0].id, Some(device));
      if Watches(rules[0], device, members) then [Judge(pair, Some(true), deliver(pair))] + rest else rest
  }

  /** The pass over the devices that have just gone silent. */
  function DeviceTurns(devices: seq<nat>, rules: seq<Rule>, members: nat -> seq<nat>, deliver: Pair -> Delivery): seq<Turn> {
    if devices == [] then []
    else [MarkOffline(devices[0])] + WatcherTurns(devices[0], rules, members, deliver) + DeviceTurns(devices[1..], rules, members, deliver)
  }

  /** Each pass reads the rules, with their statuses, from the database first. */
  datatype Cycle =
    | Readings(rules: seq<Rule>, verdict: nat -> Option<bool>, deliver: Pair -> Delivery, budget: nat)
    | Silence(devices: seq<nat>, rules: seq<Rule>, members: nat -> seq<nat>, deliver: Pair -> Delivery, budget: nat)

  function TurnsOf(c: Cycle): seq<Turn> {
    match c
    case Readings(rules, verdict, deliver, _) => RuleTurns(rules, verdict, deliver)
    case Silence(devices, rules, members, deliver, _) => DeviceTurns(devices, rules, members, deliver)
  }

  function Reload(w: World): World { w.(memory := w.stored) }

  function RunCycle(w: World, c: Cycle): Part { TakeTurns(Reload(w), TurnsOf(c), c.budget) }

  function Run(w: World, cycles: seq<Cycle>): World {
    if cycles == [] then w else RunCycle(Run(w, cycles[..|cycles| - 1]), cycles[|cycles| - 1]).world
  }

  /** A tenant without events and statuses. */
  const BLANK := World([], map[], map[], {}, [], [], [])
}
