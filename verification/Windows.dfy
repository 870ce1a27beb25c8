/** Lists of clock readings, and the two ways of cutting them down to a window: filtering, and dropping from the front. */
module Windows {
  type Times = seq<real>

  predicate Sorted(ts: Times) { forall i, j :: 0 <= i < j < |ts| ==> ts[i] <= ts[j] }

  /** The log entries after a moment: what both limiters mean by their window. */
  function Since(ts: Times, cutoff: real): Times {
    if ts == [] then []
    else Since(ts[..|ts| - 1], cutoff) + if ts[|ts| - 1] > cutoff then [ts[|ts| - 1]] else []
  }

  /** Dropping old entries from the front only, as the deque does. */
  function DropOld(ts: Times, cutoff: real): Times {
    if ts != [] && ts[0] <= cutoff then DropOld(ts[1..], cutoff) else ts
  }

  // ----- Dropping from the front is filtering --------------------------------------------------------

  lemma {:induction false} SinceSplits(a: Times, b: Times, cutoff: real)
    ensures Since(a + b, cutoff) == Since(a, cutoff) + Since(b, cutoff)
    decreases |b|
  {
    if b == [] {
      assert a + b == a;
    } else {
      assert (a + b)[..|a + b| - 1] == a + b[..|b| - 1];
      SinceSplits(a, b[..|b| - 1], cutoff);
    }
  }

  lemma {:induction false} SinceIsRecent(ts: Times, cutoff: real)
    ensures |Since(ts, cutoff)| <= |ts| && forall i :: 0 <= i < |Since(ts, cutoff)| ==> Since(ts, cutoff)[i] > cutoff
    decreases |ts|
  {
    if ts != [] {
      SinceIsRecent(ts[..|ts| - 1], cutoff);
    }
  }

  lemma {:induction false} SinceAll(ts: Times, cutoff: real)
    requires forall i :: 0 <= i < |ts| ==> ts[i] > cutoff
    ensures Since(ts, cutoff) == ts
    decreases |ts|
  {
    if ts != [] {
      SinceAll(ts[..|ts| - 1], cutoff);
      assert ts == ts[..|ts| - 1] + [ts[|ts| - 1]];
    }
  }

  lemma {:induction false} SinceNone(ts: Times, cutoff: real)
    requires forall i :: 0 <= i < |ts| ==> ts[i] <= cutoff
    ensures Since(ts, cutoff) == []
    decreases |ts|
  {
    if ts != [] {
      SinceNone(ts[..|ts| - 1], cutoff);
    }
  }

  /** No entry that is out of the window stands behind one that is in it. */
  predicate OldFirst(ts: Times, cutoff: real) {
    forall i, j :: 0 <= i < j < |ts| && ts[i] > cutoff ==> ts[j] > cutoff
  }

  lemma {:induction false} DropOldAt(ts: Times, cutoff: real) returns (k: nat)
    ensures k <= |ts| && DropOld(ts, cutoff) == ts[k..]
    ensures forall i :: 0 <= i < k ==> ts[i] <= cutoff
    ensures k < |ts| ==> ts[k] > cutoff
    decreases |ts|
  {
    if ts == [] || ts[0] > cutoff {
      k := 0;
    } else {
      var k' := DropOldAt(ts[1..], cutoff);
      k := k' + 1;
      assert ts[1..][k'..] == ts[k..];
      forall i | 0 <= i < k ensures ts[i] <= cutoff {
        if i > 0 { assert ts[1..][i - 1] == ts[i]; }
      }
    }
  }

  /** The front-dropping loop keeps exactly the window if and only if no old entry stands behind a newer one. */
  lemma DropOldIsFilterIff(ts: Times, cutoff: real)
    ensures DropOld(ts, cutoff) == Since(ts, cutoff) <==> OldFirst(ts, cutoff)
  {
    hide Since;
    hide DropOld;
    var k := DropOldAt(ts, cutoff);
    assert ts == ts[..k] + ts[k..];
    SinceSplits(ts[..k], ts[k..], cutoff);
    SinceNone(ts[..k], cutoff);
    SinceIsRecent(ts[k..], cutoff);
    if OldFirst(ts, cutoff) {
      SinceAll(ts[k..], cutoff);
    }
  }

  /** What one pass has dropped a later pass would drop too. */
  lemma {:induction false} SinceTwice(ts: Times, first: real, second: real)
    requires first <= second
    ensures Since(Since(ts, first), second) == Since(ts, second)
    decreases |ts|
  {
    if ts != [] {
      var rest, last := ts[..|ts| - 1], ts[|ts| - 1];
      SinceTwice(rest, first, second);
      SinceSplits(Since(rest, first), if last > first then [last] else [], second);
      assert [last][..0] == [];
    }
  }

  lemma SortedPlus(ts: Times, now: real)
    requires Sorted(ts) && forall t :: t in ts ==> t <= now
    ensures Sorted(ts + [now])
  {
    assert forall i :: 0 <= i < |ts| ==> ts[i] in ts;
  }

  lemma {:induction false} SinceIsSorted(ts: Times, cutoff: real)
    requires Sorted(ts)
    ensures Sorted(Since(ts, cutoff))
    ensures forall t :: t in Since(ts, cutoff) ==> t in ts
    decreases |ts|
  {
    if ts != [] {
      var rest, last := ts[..|ts| - 1], ts[|ts| - 1];
      SinceIsSorted(rest, cutoff);
      forall t | t in Since(rest, cutoff) ensures t <= last {
        assert t in rest;
      }
      SortedPlus(Since(rest, cutoff), last);
    }
  }

  lemma {:induction false} SinceMember(ts: Times, cutoff: real, t: real)
    ensures t in Since(ts, cutoff) <==> t in ts && t > cutoff
    decreases |ts|
  {
    if ts != [] {
      assert ts == ts[..|ts| - 1] + [ts[|ts| - 1]];
      SinceMember(ts[..|ts| - 1], cutoff, t);
    }
  }

  lemma SinceDrops(ts: Times, cutoff: real, t: real)
    requires t in ts && t <= cutoff
    ensures |Since(ts, cutoff)| < |ts|
  {
    var i :| 0 <= i < |ts| && ts[i] == t;
    var front, back := ts[..i], ts[i + 1..];
    assert ts == front + ([t] + back);
    SinceSplits(front, [t] + back, cutoff);
    SinceSplits([t], back, cutoff);
    assert [t][..0] == [] && Since([t], cutoff) == [];
    SinceIsRecent(front, cutoff);
    SinceIsRecent(back, cutoff);
  }
}
