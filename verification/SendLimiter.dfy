/**
 The limiter of test notifications: at most five sends a minute. A caller reads the clock, waits for the lock, and is
 counted by its reading; what the outside sees is the moment it holds the lock, which no reading is later than.
 */
module SendLimiter {
  import opened Windows

  type Key = string

  function At(m: map<Key, Times>, key: Key): Times { if key in m then m[key] else [] }

  // ----- The deque and the log -----------------------------------------------------------------------

  const LIMIT := 5
  const WINDOW := 60.0

  /** A deque of recent sends beside the full log of every send let through. */
  datatype Queue = Queue(kept: Times, log: Times)

  function Pass(q: Queue, now: real): Queue {
    var kept := DropOld(q.kept, now - WINDOW);
    if |kept| >= LIMIT then Queue(kept, q.log) else Queue(kept + [now], q.log + [now])
  }

  function PassAll(requests: Times): Queue {
    if requests == [] then Queue([], []) else Pass(PassAll(requests[..|requests| - 1]), requests[|requests| - 1])
  }

  lemma PassOneMore(requests: Times, now: real)
    ensures PassAll(requests + [now]) == Pass(PassAll(requests), now)
  {
    assert (requests + [now])[..|requests|] == requests;
  }

  /** What the limiter promises, said of the log alone: fewer than five sends in the last minute. */
  predicate Allowed(log: Times, now: real) { |Since(log, now - WINDOW)| < LIMIT }

  predicate NoLater(ts: Times, now: real) { forall t :: t in ts ==> t <= now }

  lemma KeptIsTheWindow(q: Queue, now: real)
    requires DropOld(q.kept, now - WINDOW) == Since(q.log, now - WINDOW)
    ensures Pass(q, now).kept == Since(Pass(q, now).log, now - WINDOW)
    ensures Pass(q, now).log == if Allowed(q.log, now) then q.log + [now] else q.log
  {
    assert (q.log + [now])[..|q.log|] == q.log;
  }

  lemma WindowMoves(q: Queue, last: real, now: real)
    requires DropOld(q.kept, last - WINDOW) == Since(q.log, last - WINDOW)
    requires Sorted(q.log) && NoLater(q.log, last) && last <= now
    ensures Sorted(Pass(q, last).log) && NoLater(Pass(q, last).log, now)
    ensures DropOld(Pass(q, last).kept, now - WINDOW) == Since(Pass(q, last).log, now - WINDOW)
  {
    hide Since;
    hide DropOld;
    hide Pass;
    hide Allowed;
    var q' := Pass(q, last);
    KeptIsTheWindow(q, last);
    SortedPlus(q.log, last);
    SinceTwice(q'.log, last - WINDOW, now - WINDOW);
    SinceIsSorted(q'.log, last - WINDOW);
    DropOldIsFilterIff(q'.kept, now - WINDOW);
  }

  /** When no clock reading goes back, the deque is the last minute of the log. */
  lemma {:induction false} QueueIsTheWindow(requests: Times, now: real)
    requires Sorted(requests) && NoLater(requests, now)
    ensures Sorted(PassAll(requests).log) && NoLater(PassAll(requests).log, now)
    ensures DropOld(PassAll(requests).kept, now - WINDOW) == Since(PassAll(requests).log, now - WINDOW)
    decreases |requests|
  {
    if requests == [] {
      assert DropOld([], now - WINDOW) == Since([], now - WINDOW);
    } else {
      var earlier, last := requests[..|requests| - 1], requests[|requests| - 1];
      assert requests[|requests| - 1] in requests;
      assert forall i :: 0 <= i < |earlier| ==> earlier[i] == requests[i];
      QueueIsTheWindow(earlier, last);
      WindowMoves(PassAll(earlier), last, now);
    }
  }

  /** So the limiter decides as the full log would. */
  lemma DequeRefinesTheLog(requests: Times, now: real)
    requires Sorted(requests) && NoLater(requests, now)
    ensures PassAll(requests + [now]).log
         == if Allowed(PassAll(requests).log, now) then PassAll(requests).log + [now] else PassAll(requests).log
  {
    PassOneMore(requests, now);
    QueueIsTheWindow(requests, now);
    KeptIsTheWindow(PassAll(requests), now);
  }

  /** The deque is the end of the log. */
  lemma {:induction false} KeptIsTheEnd(requests: Times)
    ensures var q := PassAll(requests); |q.kept| <= |q.log| && q.kept == q.log[|q.log| - |q.kept|..]
    decreases |requests|
  {
    if requests != [] {
      var q, now := PassAll(requests[..|requests| - 1]), requests[|requests| - 1];
      KeptIsTheEnd(requests[..|requests| - 1]);
      var k := DropOldAt(q.kept, now - WINDOW);
    }
  }

  /** Nothing that is still in the window has been dropped, and in the deque nothing old stands behind something newer. */
  predicate Faithful(q: Queue, cutoff: real) {
    (forall i :: 0 <= i < |q.log| - |q.kept| && i < |q.log| ==> q.log[i] <= cutoff) && OldFirst(q.kept, cutoff)
  }

  /** For readings in any order: exactly when the deque shows the window of the full log. */
  lemma DequeIsTheWindowIff(requests: Times, cutoff: real)
    ensures var q := PassAll(requests); DropOld(q.kept, cutoff) == Since(q.log, cutoff) <==> Faithful(q, cutoff)
  {
    hide PassAll;
    hide Since;
    hide DropOld;
    hide OldFirst;
    var q := PassAll(requests);
    KeptIsTheEnd(requests);
    var dropped := q.log[..|q.log| - |q.kept|];
    assert q.log == dropped + q.kept;
    SinceSplits(dropped, q.kept, cutoff);
    DropOldIsFilterIff(q.kept, cutoff);
    if forall i :: 0 <= i < |dropped| ==> dropped[i] <= cutoff {
      SinceNone(dropped, cutoff);
    } else {
      var i :| 0 <= i < |dropped| && dropped[i] > cutoff;
      SinceMember(dropped, cutoff, dropped[i]);
      StillNoWindow(dropped, q.kept, cutoff);
    }
  }

  lemma StillNoWindow(dropped: Times, kept: Times, cutoff: real)
    requires Since(dropped, cutoff) != []
    ensures DropOld(kept, cutoff) != Since(dropped, cutoff) + Since(kept, cutoff)
  {
    hide Since;
    hide DropOld;
    var k := DropOldAt(kept, cutoff);
    assert kept == kept[..k] + kept[k..];
    SinceSplits(kept[..k], kept[k..], cutoff);
    SinceNone(kept[..k], cutoff);
    SinceSplits(dropped, kept, cutoff);
    SinceIsRecent(dropped + kept, cutoff);
    if DropOld(kept, cutoff) == Since(dropped, cutoff) + Since(kept, cutoff) {
      SinceAll(kept[k..], cutoff);
    }
  }

  // ----- Readings and moments ------------------------------------------------------------------------

  /** A request: when it read the clock, and when it held the lock. */
  datatype Arrival = Arrival(reading: real, locked: real)

  /** No reading is later than its moment, and the lock is held in turn. */
  predicate Orderly(run: seq<Arrival>) {
    && (forall i :: 0 <= i < |run| ==> run[i].reading <= run[i].locked)
    && (forall i, j :: 0 <= i < j < |run| ==> run[i].locked <= run[j].locked)
  }

  function Readings(run: seq<Arrival>): (ts: Times)
    ensures |ts| == |run| && forall i :: 0 <= i < |run| ==> ts[i] == run[i].reading
  {
    seq(|run|, i requires 0 <= i < |run| => run[i].reading)
  }

  function Moments(run: seq<Arrival>): (ts: Times)
    ensures |ts| == |run| && forall i :: 0 <= i < |run| ==> ts[i] == run[i].locked
  {
    seq(|run|, i requires 0 <= i < |run| => run[i].locked)
  }

  predicate LetThrough(q: Queue, now: real) { |DropOld(q.kept, now - WINDOW)| < LIMIT }

  /** The requests let through. */
  function Accepted(run: seq<Arrival>): seq<Arrival> {
    if run == [] then []
    else
      var before, x := run[..|run| - 1], run[|run| - 1];
      if LetThrough(PassAll(Readings(before)), x.reading) then Accepted(before) + [x] else Accepted(before)
  }

  lemma ReadingsPlus(run: seq<Arrival>, x: Arrival)
    ensures Readings(run + [x]) == Readings(run) + [x.reading]
    ensures PassAll(Readings(run + [x])) == Pass(PassAll(Readings(run)), x.reading)
  {
    PassOneMore(Readings(run), x.reading);
  }

  lemma AcceptedPlus(run: seq<Arrival>, x: Arrival)
    ensures Accepted(run + [x])
         == if LetThrough(PassAll(Readings(run)), x.reading) then Accepted(run) + [x] else Accepted(run)
  {
    assert (run + [x])[..|run|] == run;
  }

  /** The log holds their readings. */
  lemma {:induction false} LogIsAccepted(run: seq<Arrival>)
    ensures PassAll(Readings(run)).log == Readings(Accepted(run))
    decreases |run|
  {
    if run != [] {
      var before, x := run[..|run| - 1], run[|run| - 1];
      assert run == before + [x];
      LogIsAccepted(before);
      ReadingsPlus(before, x);
      ReadingsPlus(Accepted(before), x);
    }
  }

  // ----- At most five in a minute less the wait ------------------------------------------------------

  /** No request so far reads later than top, and the last n sends read less than a minute before it: they are in the deque. */
  lemma {:induction false} RecentAreKept(requests: Times, top: real, n: nat, now: real)
    requires NoLater(requests, top) && now <= top && n <= |PassAll(requests).log|
    requires var log := PassAll(requests).log; forall i :: |log| - n <= i < |log| ==> log[i] > top - WINDOW
    ensures |DropOld(PassAll(requests).kept, now - WINDOW)| >= n
    decreases |requests|
  {
    if requests != [] && n > 0 {
      hide Pass;
      var earlier, last := requests[..|requests| - 1], requests[|requests| - 1];
      var q, q' := PassAll(earlier), PassAll(requests);
      assert last in requests;
      forall t | t in earlier ensures t in requests {
        var i :| 0 <= i < |earlier| && earlier[i] == t;
        assert requests[i] == t;
      }
      PassGrows(q, last);
      forall i | |q.log| - (n - 1) <= i < |q.log| ensures q.log[i] > top - WINDOW {
        assert q'.log[i] == q.log[i];
      }
      if q'.log == q.log {
        RecentAreKept(earlier, top, n, last);
      } else {
        RecentAreKept(earlier, top, n - 1, last);
      }
      KeptIsTheEnd(requests);
      EndStays(q', n, now);
    } else {
      assert n == 0 || PassAll(requests).log == [];
    }
  }

  lemma PassGrows(q: Queue, now: real)
    ensures var kept, q' := DropOld(q.kept, now - WINDOW), Pass(q, now);
            (q'.log == q.log && q'.kept == kept) || (q'.log == q.log + [now] && q'.kept == kept + [now])
  {
  }

  lemma EndStays(q: Queue, n: nat, now: real)
    requires n <= |q.kept| <= |q.log| && q.kept == q.log[|q.log| - |q.kept|..]
    requires forall i :: |q.log| - n <= i < |q.log| ==> q.log[i] > now - WINDOW
    ensures |DropOld(q.kept, now - WINDOW)| >= n
  {
    var k := DropOldAt(q.kept, now - WINDOW);
    if n > 0 { assert q.kept[|q.kept| - n] == q.log[|q.log| - n]; }
  }

  /** No accepted request waited longer than this between its reading and the lock. */
  predicate WaitsAtMost(run: seq<Arrival>, delay: real) {
    forall i :: 0 <= i < |Accepted(run)| ==> Accepted(run)[i].locked - Accepted(run)[i].reading <= delay
  }

  /** Five sends apart means this far apart. */
  predicate Spaced(log: Times, gap: real) {
    forall i :: 0 <= i && i + LIMIT < |log| ==> log[i + LIMIT] - log[i] >= gap
  }

  lemma {:induction false} AcceptedAreRequests(run: seq<Arrival>)
    requires Orderly(run)
    ensures Orderly(Accepted(run))
    ensures forall i :: 0 <= i < |Accepted(run)| ==> run != [] && Accepted(run)[i].locked <= run[|run| - 1].locked
    decreases |run|
  {
    hide LetThrough;
    hide PassAll;
    if run != [] {
      AcceptedAreRequests(run[..|run| - 1]);
    }
  }

  lemma {:induction false} SendsAreSpaced(run: seq<Arrival>, delay: real)
    requires Orderly(run) && WaitsAtMost(run, delay)
    ensures Spaced(Moments(Accepted(run)), WINDOW - delay)
    decreases |run|
  {
    hide Accepted;
    hide PassAll;
    hide LetThrough;
    hide Orderly;
    if run == [] {
      NoneAccepted();
    } else {
      var before, x := run[..|run| - 1], run[|run| - 1];
      var sent := Accepted(before);
      assert run == before + [x];
      OrderlyPrefix(before, x);
      AcceptedPlus(before, x);
      assert forall i :: 0 <= i < |sent| ==> Accepted(run)[i] == sent[i];
      SendsAreSpaced(before, delay);
      if LetThrough(PassAll(Readings(before)), x.reading) && |sent| >= LIMIT {
        SixthIsLate(before, x, delay);
      }
    }
  }

  lemma NoneAccepted()
    ensures Accepted([]) == [] && PassAll(Readings([])) == Queue([], [])
  {
  }

  lemma OrderlyPrefix(run: seq<Arrival>, x: Arrival)
    requires Orderly(run + [x])
    ensures Orderly(run)
  {
    assert forall i :: 0 <= i < |run| ==> (run + [x])[i] == run[i];
  }

  /** Whoever is let through after five sends holds the lock this long after the first of them did. */
  lemma SixthIsLate(before: seq<Arrival>, x: Arrival, delay: real)
    requires Orderly(before + [x]) && WaitsAtMost(before, delay)
    requires LetThrough(PassAll(Readings(before)), x.reading) && |Accepted(before)| >= LIMIT
    ensures var sent := Accepted(before); x.locked - sent[|sent| - LIMIT].locked >= WINDOW - delay
  {
    hide PassAll;
    hide Accepted;
    var sent := Accepted(before);
    assert forall i :: 0 <= i < |before| ==> (before + [x])[i] == before[i] && (before + [x])[|before|] == x;
    AcceptedAreRequests(before);
    LogIsAccepted(before);
    if x.locked - sent[|sent| - LIMIT].locked < WINDOW - delay {
      forall i | |sent| - LIMIT <= i < |sent| ensures Readings(sent)[i] > x.locked - WINDOW {
        assert sent[i].locked >= sent[|sent| - LIMIT].locked;
      }
      RecentAreKept(Readings(before), x.locked, LIMIT, x.reading);
    }
  }

  /** How many fall within this length of time from the start. */
  function CountIn(log: Times, start: real, length: real): (n: nat)
    ensures n <= |log|
  {
    if log == [] then 0
    else CountIn(log[..|log| - 1], start, length) + if start <= log[|log| - 1] < start + length then 1 else 0
  }

  lemma {:induction false} CountAfter(log: Times, start: real, length: real, i: nat)
    requires Sorted(log) && i < |log| && log[i] < start
    ensures CountIn(log, start, length) <= |log| - 1 - i
    decreases |log|
  {
    if i == |log| - 1 {
      if i > 0 { CountAfter(log[..i], start, length, i - 1); }
    } else {
      CountAfter(log[..|log| - 1], start, length, i);
    }
  }

  lemma {:induction false} SpacedCount(log: Times, start: real, length: real, gap: real)
    requires Sorted(log) && Spaced(log, gap) && length <= gap
    ensures CountIn(log, start, length) <= LIMIT
    decreases |log|
  {
    if log != [] {
      var last := log[|log| - 1];
      if start <= last < start + length {
        if |log| > LIMIT {
          assert log[|log| - 1 - LIMIT + LIMIT] - log[|log| - 1 - LIMIT] >= gap;
          CountAfter(log, start, length, |log| - 1 - LIMIT);
        }
      } else {
        SpacedCount(log[..|log| - 1], start, length, gap);
      }
    }
  }

  /** Whatever the requests: when no caller let through waited longer than the delay, no sixty seconds less the delay hold more than five sends. */
  lemma AtMostFiveInAnyMinute(run: seq<Arrival>, delay: real, start: real)
    requires Orderly(run) && WaitsAtMost(run, delay)
    ensures CountIn(Moments(Accepted(run)), start, 60.0 - delay) <= 5
  {
    SendsAreSpaced(run, delay);
    AcceptedAreRequests(run);
    SpacedCount(Moments(Accepted(run)), start, WINDOW - delay, WINDOW - delay);
  }

  // ----- And no better -------------------------------------------------------------------------------

  lemma {:induction false} CountAll(log: Times, start: real, length: real)
    requires forall i :: 0 <= i < |log| ==> start <= log[i] < start + length
    ensures CountIn(log, start, length) == |log|
    decreases |log|
  {
    if log != [] {
      CountAll(log[..|log| - 1], start, length);
    }
  }

  lemma {:induction false} CountNone(log: Times, start: real, length: real)
    requires length <= 0.0
    ensures CountIn(log, start, length) == 0
    decreases |log|
  {
    if log != [] {
      CountNone(log[..|log| - 1], start, length);
    }
  }

  function Five(delay: real): seq<Arrival> { seq(LIMIT, _ => Arrival(0.0, delay)) }

  /** Five callers read the clock at zero and wait for the lock as long as they may; the sixth reads sixty. */
  function Late(delay: real): seq<Arrival> { Five(delay) + [Arrival(WINDOW, if delay > WINDOW then delay else WINDOW)] }

  lemma {:induction false} FirstAccepted(delay: real, n: nat)
    requires n <= LIMIT
    ensures Accepted(Five(delay)[..n]) == Five(delay)[..n]
    ensures PassAll(Readings(Five(delay)[..n])).kept == Readings(Five(delay)[..n])
  {
    hide Accepted;
    hide PassAll;
    hide DropOld;
    if n == 0 {
      NoneAccepted();
    } else {
      var before, x := Five(delay)[..n - 1], Arrival(0.0, delay);
      assert Five(delay)[..n] == before + [x];
      FirstAccepted(delay, n - 1);
      ReadingsPlus(before, x);
      AcceptedPlus(before, x);
      var kept := Readings(before);
      var k := DropOldAt(kept, x.reading - WINDOW);
      assert kept != [] ==> kept[0] == before[0].reading == 0.0;
      assert k == 0 && kept[k..] == kept;
    }
  }

  lemma AllSixAccepted(delay: real)
    ensures Accepted(Late(delay)) == Late(delay)
  {
    hide PassAll;
    FirstAccepted(delay, LIMIT);
    assert Five(delay)[..LIMIT] == Five(delay) && Late(delay)[..LIMIT] == Five(delay);
    var k := DropOldAt(PassAll(Readings(Five(delay))).kept, 0.0);
  }

  /** With waits up to the delay: exactly the lengths of time that never hold more than five sends. */
  lemma SafeLengthIff(delay: real, length: real)
    requires delay >= 0.0
    ensures (forall run: seq<Arrival>, start: real :: Orderly(run) && WaitsAtMost(run, delay) ==>
               CountIn(Moments(Accepted(run)), start, length) <= 5)
       <==> (length <= 0.0 || length <= 60.0 - delay)
  {
    if length <= 0.0 || length <= WINDOW - delay {
      forall run: seq<Arrival>, start: real | Orderly(run) && WaitsAtMost(run, delay)
        ensures CountIn(Moments(Accepted(run)), start, length) <= LIMIT
      {
        if length <= 0.0 {
          CountNone(Moments(Accepted(run)), start, length);
        } else {
          SendsAreSpaced(run, delay);
          AcceptedAreRequests(run);
          SpacedCount(Moments(Accepted(run)), start, length, WINDOW - delay);
        }
      }
    } else {
      AllSixAccepted(delay);
      CountAll(Moments(Accepted(Late(delay))), delay, length);
      assert Orderly(Late(delay)) && WaitsAtMost(Late(delay), delay);
      assert CountIn(Moments(Accepted(Late(delay))), delay, length) == LIMIT + 1;
    }
  }

  // ----- The limiter ---------------------------------------------------------------------------------

  class TestSends {
    var attempts: map<Key, Times>
    /** Every request of each key so far, which the limiter does not keep. */
    ghost var arrivals: map<Key, seq<Arrival>>

    ghost function Past(key: Key): seq<Arrival>
      reads this
    {
      if key in arrivals then arrivals[key] else []
    }

    ghost predicate Valid()
      reads this
    {
      forall key :: At(attempts, key) == PassAll(Readings(Past(key))).kept && Orderly(Past(key))
    }

    constructor ()
      ensures Valid() && arrivals == map[]
    {
      attempts, arrivals := map[], map[];
    }

    /**
     Lets a request through when the deque holds fewer than five sends of the last minute - exactly when the full log
     does, as long as the deque shows the log's window.
     */
    method CheckRateLimit(key: Key, now: real, ghost moment: real) returns (allowed: bool)
      requires Valid() && Orderly(Past(key) + [Arrival(now, moment)])
      modifies this
      ensures Valid() && arrivals == old(arrivals)[key := old(Past(key)) + [Arrival(now, moment)]]
      ensures Accepted(Past(key)) == if allowed then Accepted(old(Past(key))) + [Arrival(now, moment)] else Accepted(old(Past(key)))
      ensures var q := PassAll(Readings(old(Past(key))));
              Faithful(q, now - 60.0) ==> (allowed <==> |Since(q.log, now - 60.0)| < 5)
    {
      hide PassAll;
      hide Orderly;
      hide Accepted;
      hide Faithful;
      hide Since;
      ghost var past, x := Past(key), Arrival(now, moment);
      NextIs(past, x);
      arrivals := arrivals[key := past + [x]];
      var q := At(attempts, key);
      while q != [] && q[0] <= now - WINDOW
        invariant DropOld(q, now - WINDOW) == DropOld(At(old(attempts), key), now - WINDOW)
        decreases |q|
      {
        q := q[1..];
      }
      allowed := |q| < LIMIT;
      attempts := attempts[key := if allowed then q + [now] else q];
      forall k ensures At(attempts, k) == PassAll(Readings(Past(k))).kept && Orderly(Past(k)) {
        assert At(old(attempts), k) == PassAll(Readings(old(Past(k)))).kept && Orderly(old(Past(k)));
      }
    }
  }

  /** What the next request does to deque and sends. */
  lemma NextIs(past: seq<Arrival>, x: Arrival)
    ensures var q, kept := PassAll(Readings(past)), DropOld(PassAll(Readings(past)).kept, x.reading - WINDOW);
            && PassAll(Readings(past + [x])).kept == (if |kept| < LIMIT then kept + [x.reading] else kept)
            && Accepted(past + [x]) == (if |kept| < LIMIT then Accepted(past) + [x] else Accepted(past))
            && (Faithful(q, x.reading - WINDOW) ==> (|kept| < LIMIT <==> Allowed(q.log, x.reading)))
  {
    hide PassAll;
    hide Since;
    hide DropOld;
    hide Faithful;
    hide Accepted;
    ReadingsPlus(past, x);
    AcceptedPlus(past, x);
    DequeIsTheWindowIff(Readings(past), x.reading - WINDOW);
  }
}
