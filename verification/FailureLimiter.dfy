/** The limiter of failed logins: five failures within fifteen minutes, over a list pruned at every failure and question. */
module FailureLimiter {
  import opened Windows

  type Key = string

  function At(m: map<Key, Times>, key: Key): Times { if key in m then m[key] else [] }

  // ----- The pruned list and the history -------------------------------------------------------------

  const PATIENCE := 900.0
  const MAX_FAILURES := 5

  datatype Attempt = Failure(at: real) | Question(at: real) | Cleared

  /** The list the limiter keeps: pruned at every failure and every question, dropped at a clear. */
  function Kept(log: seq<Attempt>): Times {
    if log == [] then []
    else
      var before := Kept(log[..|log| - 1]);
      match log[|log| - 1]
      case Failure(at) => Since(before, at - PATIENCE) + [at]
      case Question(at) => Since(before, at - PATIENCE)
      case Cleared => []
  }

  /** All failures since the last clear. */
  function SinceClear(log: seq<Attempt>): Times {
    if log == [] then []
    else
      match log[|log| - 1]
      case Failure(at) => SinceClear(log[..|log| - 1]) + [at]
      case Question(_) => SinceClear(log[..|log| - 1])
      case Cleared => []
  }

  predicate NoClearAfter(log: seq<Attempt>, i: int)
    requires 0 <= i < |log|
  {
    forall j :: i < j < |log| ==> !log[j].Cleared?
  }

  /** A later reading pruned this failure, which a question at this moment would still count. */
  predicate PrunedEarly(log: seq<Attempt>, i: int, k: int, now: real)
    requires 0 <= i < k < |log|
  {
    && log[i].Failure? && NoClearAfter(log, i) && !log[k].Cleared?
    && now - PATIENCE < log[i].at <= log[k].at - PATIENCE
  }

  ghost predicate LostEarly(log: seq<Attempt>, now: real) {
    exists i, k :: 0 <= i < k < |log| && PrunedEarly(log, i, k, now)
  }

  lemma {:induction false} SinceClearHas(log: seq<Attempt>, t: real)
    ensures t in SinceClear(log) <==> exists i :: 0 <= i < |log| && log[i] == Failure(t) && NoClearAfter(log, i)
    decreases |log|
  {
    if log != [] {
      var rest, last := log[..|log| - 1], log[|log| - 1];
      SinceClearHas(rest, t);
      if last == Failure(t) { assert NoClearAfter(log, |log| - 1); }
      if !last.Cleared? {
        forall i | 0 <= i < |rest| ensures NoClearAfter(log, i) <==> NoClearAfter(rest, i) {
          if NoClearAfter(log, i) { assert forall j :: i < j < |rest| ==> rest[j] == log[j]; }
        }
      }
    }
  }

  /** What a failure or question adds to the loss: the failures it prunes that are in the window asked for. */
  lemma LostEarlyStep(log: seq<Attempt>, now: real)
    requires log != [] && !log[|log| - 1].Cleared?
    ensures var rest, at := log[..|log| - 1], log[|log| - 1].at;
            LostEarly(log, now) <==> LostEarly(rest, now) || exists t :: t in SinceClear(rest) && now - PATIENCE < t <= at - PATIENCE
  {
    var n := |log| - 1;
    var rest, at := log[..n], log[n].at;
    forall i, k | 0 <= i < k < n ensures PrunedEarly(log, i, k, now) <==> PrunedEarly(rest, i, k, now) {
      NoClearPrefix(log, i);
    }
    if LostEarly(rest, now) {
      var i, k :| 0 <= i < k < n && PrunedEarly(rest, i, k, now);
      assert PrunedEarly(log, i, k, now);
    }
    if exists t :: t in SinceClear(rest) && now - PATIENCE < t <= at - PATIENCE {
      var t :| t in SinceClear(rest) && now - PATIENCE < t <= at - PATIENCE;
      SinceClearHas(rest, t);
      var i :| 0 <= i < n && rest[i] == Failure(t) && NoClearAfter(rest, i);
      NoClearPrefix(log, i);
      assert PrunedEarly(log, i, n, now);
    }
    if LostEarly(log, now) {
      var i, k :| 0 <= i < k < |log| && PrunedEarly(log, i, k, now);
      if k == n {
        NoClearPrefix(log, i);
        SinceClearHas(rest, log[i].at);
        assert rest[i] == Failure(log[i].at);
      } else {
        assert PrunedEarly(rest, i, k, now);
      }
    }
  }

  lemma NoClearPrefix(log: seq<Attempt>, i: int)
    requires 0 <= i < |log| - 1 && !log[|log| - 1].Cleared?
    ensures NoClearAfter(log, i) <==> NoClearAfter(log[..|log| - 1], i)
  {
    var rest := log[..|log| - 1];
    if NoClearAfter(rest, i) {
      assert forall j :: i < j < |rest| ==> log[j] == rest[j];
    }
  }

  lemma ClearedIsNotLost(log: seq<Attempt>, now: real)
    requires log == [] || log[|log| - 1].Cleared?
    ensures !LostEarly(log, now)
  {
  }

  /** The list and the history show the same window, or the list shows less of it. */
  ghost predicate Shows(kept: Times, failures: Times, cutoff: real, lost: bool) {
    if lost then |Since(kept, cutoff)| < |Since(failures, cutoff)| else Since(kept, cutoff) == Since(failures, cutoff)
  }

  lemma PruneStep(kept: Times, failures: Times, pruned: real, cutoff: real, lost: bool)
    requires Shows(kept, failures, cutoff, lost)
    ensures Shows(Since(kept, pruned), failures, cutoff, lost || exists t :: t in failures && cutoff < t <= pruned)
  {
    hide Since;
    if pruned <= cutoff {
      SinceTwice(kept, pruned, cutoff);
    } else {
      SinceIsRecent(kept, pruned);
      SinceAll(Since(kept, pruned), cutoff);
      SinceTwice(kept, cutoff, pruned);
      var window := Since(failures, cutoff);
      SinceIsRecent(Since(kept, cutoff), pruned);
      if exists t :: t in failures && cutoff < t <= pruned {
        var t :| t in failures && cutoff < t <= pruned;
        SinceMember(failures, cutoff, t);
        SinceDrops(window, pruned, t);
      } else {
        forall i | 0 <= i < |window| ensures window[i] > pruned {
          SinceMember(failures, cutoff, window[i]);
        }
        SinceAll(window, pruned);
      }
    }
  }

  lemma AddStep(kept: Times, failures: Times, cutoff: real, lost: bool, at: real)
    requires Shows(kept, failures, cutoff, lost)
    ensures Shows(kept + [at], failures + [at], cutoff, lost)
  {
    hide Since;
    SinceSplits(kept, [at], cutoff);
    SinceSplits(failures, [at], cutoff);
  }

  /**
   The pruned list answers for the last fifteen minutes as the whole history would, exactly when no failure since the
   last clear that is still in them was pruned by a later entry whose reading was ahead; otherwise it shows too few.
   */
  lemma {:induction false} KeptIsEnoughIff(log: seq<Attempt>, now: real)
    ensures Shows(Kept(log), SinceClear(log), now - PATIENCE, LostEarly(log, now))
    ensures Since(Kept(log), now - PATIENCE) == Since(SinceClear(log), now - PATIENCE) <==> !LostEarly(log, now)
    ensures |Since(Kept(log), now - PATIENCE)| <= |Since(SinceClear(log), now - PATIENCE)|
    decreases |log|
  {
    hide Since;
    hide LostEarly;
    if log == [] || log[|log| - 1].Cleared? {
      ClearedIsNotLost(log, now);
    } else {
      var rest, last := log[..|log| - 1], log[|log| - 1];
      KeptIsEnoughIff(rest, now);
      LostEarlyStep(log, now);
      PruneStep(Kept(rest), SinceClear(rest), last.at - PATIENCE, now - PATIENCE, LostEarly(rest, now));
      if last.Failure? {
        AddStep(Since(Kept(rest), last.at - PATIENCE), SinceClear(rest), now - PATIENCE, LostEarly(log, now), last.at);
      }
    }
  }

  /** When the clock readings are in order nothing is lost. */
  lemma InOrderLosesNothing(log: seq<Attempt>, now: real)
    requires forall k :: 0 <= k < |log| && !log[k].Cleared? ==> log[k].at <= now
    ensures !LostEarly(log, now)
  {
  }

  /** A question that read 901 prunes a failure at 0; to one that read 10 and got the lock later there is none. */
  lemma LateReadingForgetsAFailure()
    ensures var log := [Failure(0.0), Question(901.0)];
            LostEarly(log, 10.0) && Kept(log) == [] && SinceClear(log) == [0.0]
  {
    var log := [Failure(0.0), Question(901.0)];
    assert log[..1] == [Failure(0.0)] && log[..1][..0] == [];
    assert Kept([]) == [] && Since([], -900.0) == [];
    assert Kept(log[..1]) == [0.0] && SinceClear(log[..1]) == [0.0];
    SinceNone([0.0], 1.0);
    assert PrunedEarly(log, 0, 1, 10.0);
  }

  // ----- The limiter ---------------------------------------------------------------------------------

  class LoginFailures {
    var failures: map<Key, Times>
    ghost var log: map<Key, seq<Attempt>>

    ghost function History(key: Key): seq<Attempt>
      reads this
    {
      if key in log then log[key] else []
    }

    ghost predicate Valid()
      reads this
    {
      forall key :: At(failures, key) == Kept(History(key))
    }

    constructor ()
      ensures Valid() && log == map[]
    {
      failures, log := map[], map[];
    }

    method Evict(key: Key, now: real)
      modifies this`failures
      ensures failures == old(failures)[key := Since(At(old(failures), key), now - PATIENCE)]
    {
      var ts, kept: Times := At(failures, key), [];
      for i := 0 to |ts|
        invariant kept == Since(ts[..i], now - PATIENCE)
      {
        assert ts[..i + 1][..i] == ts[..i];
        if ts[i] > now - PATIENCE { kept := kept + [ts[i]]; }
      }
      assert ts[..|ts|] == ts;
      failures := failures[key := kept];
    }

    /**
     Limited only when five or more failures since the last clear fall in the last fifteen minutes; and exactly then,
     unless one of them was lost early.
     */
    method IsRateLimited(key: Key, now: real) returns (limited: bool)
      requires Valid()
      modifies this
      ensures Valid() && log == old(log)[key := old(History(key)) + [Question(now)]]
      ensures limited ==> |Since(SinceClear(old(History(key))), now - 900.0)| >= 5
      ensures !LostEarly(old(History(key)), now) ==>
                (limited <==> |Since(SinceClear(old(History(key))), now - 900.0)| >= 5)
    {
      hide Since;
      hide LostEarly;
      hide SinceClear;
      ghost var past := History(key);
      Evict(key, now);
      limited := |failures[key]| >= MAX_FAILURES;
      log := log[key := past + [Question(now)]];
      assert (past + [Question(now)])[..|past|] == past;
      forall k ensures At(failures, k) == Kept(History(k)) {
        assert At(old(failures), k) == Kept(old(History(k)));
      }
      KeptIsEnoughIff(past, now);
    }

    method RecordFailure(key: Key, now: real)
      requires Valid()
      modifies this
      ensures Valid() && log == old(log)[key := old(History(key)) + [Failure(now)]]
    {
      hide Since;
      hide SinceClear;
      ghost var past := History(key);
      Evict(key, now);
      failures := failures[key := failures[key] + [now]];
      log := log[key := past + [Failure(now)]];
      assert (past + [Failure(now)])[..|past|] == past;
      forall k ensures At(failures, k) == Kept(History(k)) {
        assert At(old(failures), k) == Kept(old(History(k)));
      }
    }

    method ClearFailures(key: Key)
      requires Valid()
      modifies this
      ensures Valid() && log == old(log)[key := old(History(key)) + [Cleared]]
    {
      log := log[key := History(key) + [Cleared]];
      failures := failures - {key};
      forall k ensures At(failures, k) == Kept(History(k)) {
        assert At(old(failures), k) == Kept(old(History(k)));
      }
    }
  }
}
