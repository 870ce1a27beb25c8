/** What every run of the alert service keeps, whatever fails and wherever a cycle is cut. */
module AlertRuns {
  import opened Basics
  import opened Alerts

  // ----- What a cycle does ---------------------------------------------------------------------------

  /** The turn would change an event. */
  predicate ChangesEvent(w: World, t: Turn) {
    t.Judge? && t.verdict.Some? && (t.verdict.value <==> FindOpen(w.events, t.pair).None?)
  }

  /** The latest unresolved event of the turn's pair is resolved now, and no other event has changed. */
  ghost predicate ResolvesLatest(events: seq<Event>, events': seq<Event>, pair: Pair) {
    && |events'| == |events|
    && exists i :: 0 <= i < |events| && events[i].pair == pair && !events[i].resolved
                   && (forall k :: i < k < |events| ==> events[k].pair != pair || events[k].resolved)
                   && events' == events[i := events[i].(resolved := true)]
  }

  lemma NotifyLeavesEvents(w: World, events: seq<Event>, changes: seq<Change>, c: Change, d: Delivery)
    ensures Notify(w.(events := events, changes := changes), c, d) == Notify(w, c, d).(events := events, changes := changes)
  {
  }

  lemma RaiseSays(w: World, pair: Pair, d: Delivery, budget: nat)
    requires FindOpen(w.events, pair).None?
    ensures budget == 0 ==> Raise(w, pair, d, budget) == Part(w, 0, false)
    ensures var p, c := Raise(w, pair, d, budget), Change(pair, false);
            budget > 0 ==>
            var events, changes := w.events + [Event(pair, false, budget >= 3)], w.changes + [c];
            && p.world == (if budget == 1 then w else Notify(w, c, d)).(events := events, changes := changes)
            && p.goesOn == (budget >= 3) && p.left == if p.goesOn then budget - 3 else 0
  {
    hide Notify;
    hide FindOpen;
    NotifyLeavesEvents(w, w.events + [Event(pair, false, false)], w.changes + [Change(pair, false)], Change(pair, false), d);
    assert (w.events + [Event(pair, false, false)])[|w.events| := Event(pair, false, true)] == w.events + [Event(pair, false, true)];
  }

  lemma LowerSays(w: World, pair: Pair, d: Delivery, budget: nat)
    requires FindOpen(w.events, pair).Some?
    ensures budget == 0 ==> Lower(w, pair, d, budget) == Part(w, 0, false)
    ensures var p, c := Lower(w, pair, d, budget), Change(pair, true);
            budget > 0 ==>
            && ResolvesLatest(w.events, p.world.events, pair)
            && p.world == (if budget == 1 then w else Notify(w, c, d)).(events := p.world.events, changes := w.changes + [c])
            && p.goesOn == (budget >= 2) && p.left == if p.goesOn then budget - 2 else 0
  {
    hide Notify;
    hide FindOpen;
    var i := FindOpen(w.events, pair).value;
    var events := w.events[i := w.events[i].(resolved := true)];
    assert forall k :: i < k < |w.events| ==> !IsOpen(w.events[k], pair);
    NotifyLeavesEvents(w, events, w.changes + [Change(pair, true)], Change(pair, true), d);
    assert budget > 0 ==> Lower(w, pair, d, budget).world.events == events;
  }

  /**
   Said of a turn from outside, at every cut: a verdict that changes nothing changes nothing; an alert adds an event, is
   told, and then is marked as told; a verdict that it is over resolves the event and is told. An offline device is noted.
   */
  lemma TurnSays(w: World, t: Turn, budget: nat)
    ensures var p := TakeTurn(w, t, budget);
            if t.MarkOffline? then
              if budget == 0 then p == Part(w, 0, false) else p == Part(w.(offline := w.offline + {t.device}), budget - 1, true)
            else if t.verdict.None? then p == Part(w, budget, true)
            else if budget == 0 then p == Part(w, 0, false)
            else if !ChangesEvent(w, t) then p == Part(w, budget - 1, true)
            else if budget == 1 then p == Part(w, 0, false)
            else
              var c := Change(t.pair, !t.verdict.value);
              && p.world.changes == w.changes + [c]
              && (if t.verdict.value then p.world.events == w.events + [Event(t.pair, false, budget >= 4)]
                  else ResolvesLatest(w.events, p.world.events, t.pair))
              && (if budget == 2 then p.world == w.(events := p.world.events, changes := w.changes + [c])
                  else p.world == Notify(w, c, t.delivery).(events := p.world.events, changes := w.changes + [c]))
              && p.goesOn == (budget >= if t.verdict.value then 4 else 3)
              && p.left == if p.goesOn then budget - (if t.verdict.value then 4 else 3) else 0
  {
    hide Notify;
    hide ResolvesLatest;
    hide Raise;
    hide Lower;
    if t.Judge? && ChangesEvent(w, t) && budget > 0 {
      if t.verdict.value { RaiseSays(w, t.pair, t.delivery, budget - 1); } else { LowerSays(w, t.pair, t.delivery, budget - 1); }
    }
  }

  lemma TakeOne(w: World, t: Turn, budget: nat)
    ensures TakeTurns(w, [t], budget) == TakeTurn(w, t, budget)
  {
    assert [t][1..] == [];
  }

  /** Turns are taken one after the other, until one is cut. */
  lemma {:induction false} TurnsFollow(w: World, a: seq<Turn>, b: seq<Turn>, budget: nat)
    ensures var p := TakeTurns(w, a, budget);
            TakeTurns(w, a + b, budget) == if p.goesOn then TakeTurns(p.world, b, p.left) else p
    decreases |a|
  {
    hide TakeTurn;
    if a == [] {
      assert a + b == b;
    } else {
      assert (a + b)[0] == a[0] && (a + b)[1..] == a[1..] + b;
      var p := TakeTurn(w, a[0], budget);
      if p.goesOn { TurnsFollow(p.world, a[1..], b, p.left); }
    }
  }

  /** Of a rule, the pass over the readings judges it, unless it is about offline devices. */
  lemma JudgesTheRule(r: Rule, verdict: nat -> Option<bool>, deliver: Pair -> Delivery)
    ensures RuleTurns([r], verdict, deliver)
         == if r.offline then [] else [Judge(Pair(r.id, r.device), verdict(r.id), deliver(Pair(r.id, r.device)))]
  {
    assert [r][1..] == [];
  }

  lemma FirstRule(rules: seq<Rule>, verdict: nat -> Option<bool>, deliver: Pair -> Delivery)
    ensures rules != [] ==>
              RuleTurns(rules, verdict, deliver) == RuleTurns([rules[0]], verdict, deliver) + RuleTurns(rules[1..], verdict, deliver)
    ensures rules == [] ==> RuleTurns(rules, verdict, deliver) == []
  {
    if rules != [] { JudgesTheRule(rules[0], verdict, deliver); }
  }

  /** And it takes the rules in their order, each once. */
  lemma {:induction false} ReadingsPassFollows(a: seq<Rule>, b: seq<Rule>, verdict: nat -> Option<bool>, deliver: Pair -> Delivery)
    ensures RuleTurns(a + b, verdict, deliver) == RuleTurns(a, verdict, deliver) + RuleTurns(b, verdict, deliver)
    decreases |a|
  {
    hide RuleTurns;
    FirstRule(a, verdict, deliver);
    if a == [] {
      assert a + b == b;
    } else {
      assert (a + b)[1..] == a[1..] + b;
      FirstRule(a + b, verdict, deliver);
      ReadingsPassFollows(a[1..], b, verdict, deliver);
    }
  }

  /** A silent device raises an alert of every offline rule that names it or names none, and whose group, if any, it is in. */
  lemma WatchesTheDevice(device: nat, r: Rule, members: nat -> seq<nat>, deliver: Pair -> Delivery)
    ensures WatcherTurns(device, [r], members, deliver)
         == if r.offline && (r.device == None || r.device == Some(device)) && (r.group.None? || device in members(r.group.value))
            then [Judge(Pair(r.id, Some(device)), Some(true), deliver(Pair(r.id, Some(device))))] else []
  {
    assert [r][1..] == [];
  }

  lemma FirstWatcher(device: nat, rules: seq<Rule>, members: nat -> seq<nat>, deliver: Pair -> Delivery)
    ensures rules != [] ==>
              WatcherTurns(device, rules, members, deliver)
              == WatcherTurns(device, [rules[0]], members, deliver) + WatcherTurns(device, rules[1..], members, deliver)
    ensures rules == [] ==> WatcherTurns(device, rules, members, deliver) == []
  {
    if rules != [] { WatchesTheDevice(device, rules[0], members, deliver); }
  }

  lemma {:induction false} WatchersFollow(device: nat, a: seq<Rule>, b: seq<Rule>, members: nat -> seq<nat>, deliver: Pair -> Delivery)
    ensures WatcherTurns(device, a + b, members, deliver) == WatcherTurns(device, a, members, deliver) + WatcherTurns(device, b, members, deliver)
    decreases |a|
  {
    hide WatcherTurns;
    FirstWatcher(device, a, members, deliver);
    if a == [] {
      assert a + b == b;
    } else {
      assert (a + b)[1..] == a[1..] + b;
      FirstWatcher(device, a + b, members, deliver);
      WatchersFollow(device, a[1..], b, members, deliver);
    }
  }

  /** The pass over the silent devices notes each as offline and then goes through the rules. */
  lemma NotesTheDevice(device: nat, rules: seq<Rule>, members: nat -> seq<nat>, deliver: Pair -> Delivery)
    ensures DeviceTurns([device], rules, members, deliver) == [MarkOffline(device)] + WatcherTurns(device, rules, members, deliver)
  {
    hide WatcherTurns;
    assert [device][1..] == [] && DeviceTurns([], rules, members, deliver) == [];
  }

  lemma FirstDevice(devices: seq<nat>, rules: seq<Rule>, members: nat -> seq<nat>, deliver: Pair -> Delivery)
    ensures devices != [] ==>
              DeviceTurns(devices, rules, members, deliver)
              == DeviceTurns([devices[0]], rules, members, deliver) + DeviceTurns(devices[1..], rules, members, deliver)
    ensures devices == [] ==> DeviceTurns(devices, rules, members, deliver) == []
  {
    hide WatcherTurns;
    if devices != [] { NotesTheDevice(devices[0], rules, members, deliver); }
  }

  lemma {:induction false} SilencePassFollows(a: seq<nat>, b: seq<nat>, rules: seq<Rule>, members: nat -> seq<nat>, deliver: Pair -> Delivery)
    ensures DeviceTurns(a + b, rules, members, deliver) == DeviceTurns(a, rules, members, deliver) + DeviceTurns(b, rules, members, deliver)
    decreases |a|
  {
    hide DeviceTurns;
    FirstDevice(a, rules, members, deliver);
    if a == [] {
      assert a + b == b;
    } else {
      assert (a + b)[1..] == a[1..] + b;
      FirstDevice(a + b, rules, members, deliver);
      SilencePassFollows(a[1..], b, rules, members, deliver);
    }
  }

  // ----- One open event per rule and device, opened and resolved in turn -----------------------------

  ghost predicate OneOpen(events: seq<Event>) {
    forall i, j :: 0 <= i < j < |events| && events[i].pair == events[j].pair ==> events[i].resolved || events[j].resolved
  }

  /** Whether the latest change about the pair resolved it. */
  function Latest(changes: seq<Change>, pair: Pair): Option<bool> {
    if changes == [] then None
    else if changes[|changes| - 1].pair == pair then Some(changes[|changes| - 1].resolved)
    else Latest(changes[..|changes| - 1], pair)
  }

  /** For each pair: alert, resolved, alert, resolved - beginning with an alert. */
  ghost predicate Alternating(changes: seq<Change>) {
    forall k :: 0 <= k < |changes| ==> (changes[k].resolved <==> Latest(changes[..k], changes[k].pair) == Some(false))
  }

  ghost predicate Told(w: World, pair: Pair) {
    FindOpen(w.events, pair).Some? <==> Latest(w.changes, pair) == Some(false)
  }

  ghost predicate Sound(w: World) {
    OneOpen(w.events) && Alternating(w.changes) && forall pair: Pair :: Told(w, pair)
  }

  lemma LatestPlus(changes: seq<Change>, c: Change, pair: Pair)
    ensures Latest(changes + [c], pair) == if c.pair == pair then Some(c.resolved) else Latest(changes, pair)
  {
    assert (changes + [c])[..|changes|] == changes;
  }

  lemma AlternatingPlus(changes: seq<Change>, c: Change)
    requires Alternating(changes) && (c.resolved <==> Latest(changes, c.pair) == Some(false))
    ensures Alternating(changes + [c])
  {
    forall k | 0 <= k < |changes + [c]|
      ensures (changes + [c])[k].resolved <==> Latest((changes + [c])[..k], (changes + [c])[k].pair) == Some(false)
    {
      assert (changes + [c])[..k] == changes[..k];
    }
  }

  lemma OpenedSound(w: World, pair: Pair)
    requires Sound(w) && FindOpen(w.events, pair).None?
    ensures Sound(Opened(w, pair))
  {
    var w' := Opened(w, pair);
    assert Told(w, pair);
    AlternatingPlus(w.changes, Change(pair, false));
    forall p: Pair ensures Told(w', p) {
      assert Told(w, p);
      LatestPlus(w.changes, Change(pair, false), p);
      if p == pair {
        assert IsOpen(w'.events[|w.events|], p);
      } else if FindOpen(w.events, p).Some? {
        assert IsOpen(w'.events[FindOpen(w.events, p).value], p);
      }
    }
  }

  lemma ResolvedSound(w: World, pair: Pair)
    requires Sound(w) && FindOpen(w.events, pair).Some?
    ensures Sound(Resolved(w, FindOpen(w.events, pair).value))
  {
    var i := FindOpen(w.events, pair).value;
    var w' := Resolved(w, i);
    assert Told(w, pair);
    AlternatingPlus(w.changes, Change(pair, true));
    forall p: Pair ensures Told(w', p) {
      assert Told(w, p);
      LatestPlus(w.changes, Change(pair, true), p);
      if p != pair && FindOpen(w.events, p).Some? {
        assert IsOpen(w'.events[FindOpen(w.events, p).value], p);
      }
    }
  }

  lemma MarkedSound(w: World, i: nat)
    requires Sound(w) && i < |w.events|
    ensures Sound(Marked(w, i))
  {
    forall p: Pair ensures Told(Marked(w, i), p) {
      assert Told(w, p);
      if FindOpen(w.events, p).Some? {
        assert IsOpen(Marked(w, i).events[FindOpen(w.events, p).value], p);
      }
    }
  }

  lemma NotifySound(w: World, c: Change, d: Delivery)
    requires Sound(w)
    ensures Sound(Notify(w, c, d))
  {
    forall p: Pair ensures Told(Notify(w, c, d), p) {
      assert Told(w, p);
    }
  }

  lemma TurnSound(w: World, t: Turn, budget: nat)
    requires Sound(w)
    ensures Sound(TakeTurn(w, t, budget).world)
  {
    match t
    case MarkOffline(device) =>
      forall p: Pair ensures Told(TakeTurn(w, t, budget).world, p) {
        assert Told(w, p);
      }
    case Judge(pair, verdict, d) =>
      if verdict.Some? && budget > 0 {
        if verdict.value && FindOpen(w.events, pair).None? {
          RaiseSound(w, pair, d, budget - 1);
        } else if !verdict.value && FindOpen(w.events, pair).Some? {
          ResolvedSound(w, pair);
          NotifySound(Resolved(w, FindOpen(w.events, pair).value), Change(pair, true), d);
        }
      }
  }

  lemma RaiseSound(w: World, pair: Pair, d: Delivery, budget: nat)
    requires Sound(w) && FindOpen(w.events, pair).None?
    ensures Sound(Raise(w, pair, d, budget).world)
  {
    hide Sound;
    OpenedSound(w, pair);
    NotifySound(Opened(w, pair), Change(pair, false), d);
    MarkedSound(Notify(Opened(w, pair), Change(pair, false), d), |w.events|);
  }

  lemma {:induction false} TurnsSound(w: World, turns: seq<Turn>, budget: nat)
    requires Sound(w)
    ensures Sound(TakeTurns(w, turns, budget).world)
    decreases |turns|
  {
    hide Sound;
    hide TakeTurn;
    if turns != [] {
      var p := TakeTurn(w, turns[0], budget);
      TurnSound(w, turns[0], budget);
      if p.goesOn { TurnsSound(p.world, turns[1..], p.left); }
    }
  }

  /**
   In every reachable state, cut or not, a rule has at most one unresolved event for a device, and the events of
   each pair have opened and resolved strictly in turn.
   */
  lemma {:induction false} EveryRunIsSound(cycles: seq<Cycle>)
    ensures Sound(Run(BLANK, cycles))
    decreases |cycles|
  {
    if cycles == [] {
      forall p: Pair ensures Told(BLANK, p) {}
    } else {
      var before := Run(BLANK, cycles[..|cycles| - 1]);
      EveryRunIsSound(cycles[..|cycles| - 1]);
      forall p: Pair ensures Told(Reload(before), p) { assert Told(before, p); }
      TurnsSound(Reload(before), TurnsOf(cycles[|cycles| - 1]), cycles[|cycles| - 1].budget);
    }
  }

  // ----- Notifications follow the changes ------------------------------------------------------------

  /** How many changes nobody was told about. */
  function Untold(w: World): int { |w.changes| - |w.sent| }

  /** A turn leaves a change without its notification exactly when it is cut between the two. */
  lemma ChangeIsToldIff(w: World, t: Turn, budget: nat)
    requires w.sent == w.changes
    ensures var w' := TakeTurn(w, t, budget).world;
            && (w'.sent == w'.changes <==> !(ChangesEvent(w, t) && budget == 2))
            && (w'.sent != w'.changes ==> Untold(w') == 1)
  {
    if ChangesEvent(w, t) && budget == 2 {
      assert |TakeTurn(w, t, budget).world.changes| == |TakeTurn(w, t, budget).world.sent| + 1;
    }
  }

  /** Some turn is cut between its change and the notification about it. */
  predicate LosesOne(w: World, turns: seq<Turn>, budget: nat)
    decreases |turns|
  {
    turns != [] &&
    var p := TakeTurn(w, turns[0], budget);
    (ChangesEvent(w, turns[0]) && budget == 2) || (p.goesOn && LosesOne(p.world, turns[1..], p.left))
  }

  /** So it is with a sequence of turns; and one that loses a notification is cut there. */
  lemma {:induction false} TurnsTellIff(w: World, turns: seq<Turn>, budget: nat)
    requires w.sent == w.changes
    ensures var p := TakeTurns(w, turns, budget);
            && (p.world.sent == p.world.changes <==> !LosesOne(w, turns, budget))
            && (LosesOne(w, turns, budget) ==> !p.goesOn && Untold(p.world) == 1)
    decreases |turns|
  {
    if turns != [] {
      var p := TakeTurn(w, turns[0], budget);
      ChangeIsToldIff(w, turns[0], budget);
      if p.goesOn { TurnsTellIff(p.world, turns[1..], p.left); }
    }
  }

  lemma UntoldStay(w: World, t: Turn, budget: nat)
    ensures Untold(TakeTurn(w, t, budget).world) >= Untold(w)
  {
    hide MailGoesOut;
  }

  lemma {:induction false} TurnsKeepUntold(w: World, turns: seq<Turn>, budget: nat)
    ensures Untold(TakeTurns(w, turns, budget).world) >= Untold(w)
    decreases |turns|
  {
    hide TakeTurn;
    if turns != [] {
      var p := TakeTurn(w, turns[0], budget);
      UntoldStay(w, turns[0], budget);
      if p.goesOn { TurnsKeepUntold(p.world, turns[1..], p.left); }
    }
  }

  /** The cycle, coming after the others, loses a notification. */
  predicate CycleLosesOne(cycles: seq<Cycle>, k: nat)
    requires k < |cycles|
  {
    LosesOne(Reload(Run(BLANK, cycles[..k])), TurnsOf(cycles[k]), cycles[k].budget)
  }

  ghost predicate NothingLost(cycles: seq<Cycle>) {
    forall k :: 0 <= k < |cycles| ==> !CycleLosesOne(cycles, k)
  }

  lemma NothingLostYet()
    ensures NothingLost([])
  {
  }

  lemma NothingLostPlus(cycles: seq<Cycle>, n: nat)
    requires |cycles| == n + 1
    ensures NothingLost(cycles) <==> NothingLost(cycles[..n]) && !CycleLosesOne(cycles, n)
  {
    hide LosesOne;
    hide Run;
    forall k | 0 <= k < n ensures CycleLosesOne(cycles[..n], k) == CycleLosesOne(cycles, k) {
      assert cycles[..n][..k] == cycles[..k];
    }
  }

  /**
   Over whole runs: everything that changed was told, in its order, exactly when no cycle was cut between a change and
   its notification. Any other cut does no harm, and a notification lost is never made up for.
   */
  lemma {:induction false} EverythingIsToldIff(cycles: seq<Cycle>)
    ensures Run(BLANK, cycles).sent == Run(BLANK, cycles).changes <==> NothingLost(cycles)
    ensures Untold(Run(BLANK, cycles)) >= if NothingLost(cycles) then 0 else 1
    decreases |cycles|
  {
    hide LosesOne;
    hide NothingLost;
    hide TakeTurns;
    if cycles == [] {
      NothingLostYet();
    } else {
      var n := |cycles| - 1;
      var rest, c := cycles[..n], cycles[n];
      var w := Reload(Run(BLANK, rest));
      EverythingIsToldIff(rest);
      NothingLostPlus(cycles, n);
      TurnsKeepUntold(w, TurnsOf(c), c.budget);
      if NothingLost(rest) {
        TurnsTellIff(w, TurnsOf(c), c.budget);
      }
    }
  }

  /** While nothing is lost, what is sent about a rule and a device alternates: alert, resolved, alert. */
  lemma NotificationsAlternate(cycles: seq<Cycle>)
    requires NothingLost(cycles)
    ensures Alternating(Run(BLANK, cycles).sent)
  {
    EverythingIsToldIff(cycles);
    EveryRunIsSound(cycles);
  }

  function Once(r: Rule, verdict: bool, d: Delivery, budget: nat): Cycle
    requires !r.offline
  {
    Readings([r], _ => Some(verdict), _ => d, budget)
  }

  lemma OnceIsOneTurn(w: World, r: Rule, verdict: bool, d: Delivery, budget: nat)
    requires !r.offline
    ensures RunCycle(w, Once(r, verdict, d, budget)) == TakeTurn(Reload(w), Judge(Pair(r.id, r.device), Some(verdict), d), budget)
  {
    hide TakeTurn;
    var c := Once(r, verdict, d, budget);
    assert [r][1..] == [] && RuleTurns([], c.verdict, c.deliver) == [];
    assert TurnsOf(c) == [Judge(Pair(r.id, r.device), Some(verdict), d)];
    TakeOne(Reload(w), Judge(Pair(r.id, r.device), Some(verdict), d), budget);
  }

  lemma RunOfTwo(first: Cycle, second: Cycle)
    ensures Run(BLANK, [first, second]) == RunCycle(RunCycle(BLANK, first).world, second).world
  {
    hide RunCycle;
    assert [first, second][..1] == [first] && [first][..0] == [];
    assert Run(BLANK, [first]) == RunCycle(BLANK, first).world;
  }

  /** A cut between opening an event and telling about it: the first that is ever sent says "resolved". */
  lemma CutAlertIsLost(r: Rule, d: Delivery, budget: nat)
    requires !r.offline && budget >= 3
    ensures Run(BLANK, [Once(r, true, d, 2), Once(r, false, d, budget)]).sent == [Change(Pair(r.id, r.device), true)]
    ensures !Alternating([Change(Pair(r.id, r.device), true)])
  {
    hide RunCycle;
    hide Run;
    hide Once;
    var pair := Pair(r.id, r.device);
    RunOfTwo(Once(r, true, d, 2), Once(r, false, d, budget));
    OnceIsOneTurn(BLANK, r, true, d, 2);
    var w1 := RunCycle(BLANK, Once(r, true, d, 2)).world;
    assert w1 == Opened(BLANK, pair) && FindOpen(w1.events, pair) == Some(0);
    OnceIsOneTurn(w1, r, false, d, budget);
    assert [Change(pair, true)][..0] == [];
  }

  // ----- Offline alerts are never resolved -----------------------------------------------------------

  function About(changes: seq<Change>, pair: Pair): nat {
    if changes == [] then 0
    else About(changes[..|changes| - 1], pair) + if changes[|changes| - 1].pair == pair then 1 else 0
  }

  lemma AboutPlus(changes: seq<Change>, c: Change, pair: Pair)
    ensures About(changes + [c], pair) == About(changes, pair) + if c.pair == pair then 1 else 0
  {
    assert (changes + [c])[..|changes|] == changes;
  }

  predicate NeverLowers(t: Turn, rule: nat) { t.Judge? && t.pair.rule == rule ==> t.verdict != Some(false) }

  ghost predicate NoneLowers(turns: seq<Turn>, rule: nat) { forall t :: t in turns ==> NeverLowers(t, rule) }

  /** The rule is an offline rule wherever it is listed. */
  predicate OfflineIn(rules: seq<Rule>, rule: nat) { forall i :: 0 <= i < |rules| && rules[i].id == rule ==> rules[i].offline }

  lemma {:induction false} RuleTurnsSpare(rules: seq<Rule>, verdict: nat -> Option<bool>, deliver: Pair -> Delivery, rule: nat)
    requires OfflineIn(rules, rule)
    ensures NoneLowers(RuleTurns(rules, verdict, deliver), rule)
    decreases |rules|
  {
    if rules != [] {
      assert forall i :: 0 <= i < |rules[1..]| ==> rules[1..][i] == rules[i + 1];
      RuleTurnsSpare(rules[1..], verdict, deliver, rule);
    }
  }

  lemma {:induction false} WatcherTurnsRaise(device: nat, rules: seq<Rule>, members: nat -> seq<nat>, deliver: Pair -> Delivery, rule: nat)
    ensures NoneLowers(WatcherTurns(device, rules, members, deliver), rule)
    decreases |rules|
  {
    if rules != [] { WatcherTurnsRaise(device, rules[1..], members, deliver, rule); }
  }

  lemma {:induction false} DeviceTurnsRaise(devices: seq<nat>, rules: seq<Rule>, members: nat -> seq<nat>, deliver: Pair -> Delivery, rule: nat)
    ensures NoneLowers(DeviceTurns(devices, rules, members, deliver), rule)
    decreases |devices|
  {
    if devices != [] {
      WatcherTurnsRaise(devices[0], rules, members, deliver, rule);
      DeviceTurnsRaise(devices[1..], rules, members, deliver, rule);
    }
  }

  /** At most one change and one notification, and none while no event is open. */
  ghost predicate AtMostOnce(w: World, pair: Pair) {
    && About(w.sent, pair) <= About(w.changes, pair) <= 1
    && (FindOpen(w.events, pair).None? ==> About(w.changes, pair) == 0)
  }

  lemma OpenStays(events: seq<Event>, more: seq<Event>, pair: Pair)
    requires |events| <= |more| && FindOpen(events, pair).Some?
    requires forall i :: 0 <= i < |events| && IsOpen(events[i], pair) ==> IsOpen(more[i], pair)
    ensures FindOpen(more, pair).Some?
  {
    assert IsOpen(more[FindOpen(events, pair).value], pair);
  }

  /** A turn that takes effect tells of one change, and at most once; an alert opens an event and leaves the others open. */
  lemma TurnTells(w: World, t: Turn, budget: nat)
    ensures var w' := TakeTurn(w, t, budget).world;
            if !ChangesEvent(w, t) || budget <= 1 then w'.events == w.events && w'.changes == w.changes && w'.sent == w.sent
            else
              var c := Change(t.pair, !t.verdict.value);
              && w'.changes == w.changes + [c] && (w'.sent == w.sent || w'.sent == w.sent + [c])
              && |w.events| <= |w'.events|
              && (forall i :: 0 <= i < |w.events| && (t.verdict.value || w.events[i].pair != t.pair) ==> w'.events[i] == w.events[i])
              && (t.verdict.value ==> |w.events| < |w'.events| && IsOpen(w'.events[|w.events|], t.pair))
  {
    hide MailGoesOut;
  }

  lemma TurnOnce(w: World, t: Turn, budget: nat, pair: Pair)
    requires AtMostOnce(w, pair) && NeverLowers(t, pair.rule)
    ensures AtMostOnce(TakeTurn(w, t, budget).world, pair)
  {
    hide About;
    hide TakeTurn;
    TurnTells(w, t, budget);
    if ChangesEvent(w, t) && budget > 1 {
      var w' := TakeTurn(w, t, budget).world;
      AboutPlus(w.changes, Change(t.pair, !t.verdict.value), pair);
      AboutPlus(w.sent, Change(t.pair, !t.verdict.value), pair);
      if FindOpen(w.events, pair).Some? {
        OpenStays(w.events, w'.events, pair);
      } else if t.pair == pair {
        assert IsOpen(w'.events[|w.events|], pair);
      }
    }
  }

  lemma {:induction false} TurnsOnce(w: World, turns: seq<Turn>, budget: nat, pair: Pair)
    requires AtMostOnce(w, pair) && NoneLowers(turns, pair.rule)
    ensures AtMostOnce(TakeTurns(w, turns, budget).world, pair)
    decreases |turns|
  {
    if turns != [] {
      assert turns[0] in turns && forall t :: t in turns[1..] ==> t in turns;
      TurnOnce(w, turns[0], budget, pair);
      TurnsOnce(TakeTurn(w, turns[0], budget).world, turns[1..], TakeTurn(w, turns[0], budget).left, pair);
    }
  }

  /** An offline rule notifies about a device once and never again: nothing here resolves its event. */
  lemma {:induction false} OfflineAlertsComeOnce(cycles: seq<Cycle>, pair: Pair)
    requires forall k :: 0 <= k < |cycles| ==> OfflineIn(cycles[k].rules, pair.rule)
    ensures About(Run(BLANK, cycles).sent, pair) <= 1
    ensures AtMostOnce(Run(BLANK, cycles), pair)
    decreases |cycles|
  {
    if cycles != [] {
      OfflineAlertsComeOnce(cycles[..|cycles| - 1], pair);
      var c := cycles[|cycles| - 1];
      match c {
        case Readings(rules, verdict, deliver, _) => RuleTurnsSpare(rules, verdict, deliver, pair.rule);
        case Silence(devices, rules, members, deliver, _) => DeviceTurnsRaise(devices, rules, members, deliver, pair.rule);
      }
      TurnsOnce(Reload(Run(BLANK, cycles[..|cycles| - 1])), TurnsOf(c), c.budget, pair);
    }
  }
}
