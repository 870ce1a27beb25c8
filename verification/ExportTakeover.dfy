/**
 Runs that put two workers on one row, and runs that break what one worker would keep: a takeover after which a failed
 row has a file, a takeover after which a row records the size of another file, and a deletion in mid-generation that
 leaves a file behind.
 */
module ExportTakeover {
  import opened Basics
  import opened ExportProtocol
  import opened ExportSafety
  import opened ExportAccounts

  ghost predicate Reachable(s: World) {
    exists worlds: seq<World>, labels: seq<Label> :: IsRun(worlds, labels) && worlds[|worlds| - 1] == s
  }

  lemma ReachableEmpty()
    ensures Reachable(EMPTY)
  {
    assert IsRun([EMPTY], []);
  }

  lemma ReachableNext(s: World, l: Label)
    requires Reachable(s) && Enabled(s, l)
    ensures Reachable(Next(s, l))
  {
    var worlds: seq<World>, labels: seq<Label> :| IsRun(worlds, labels) && worlds[|worlds| - 1] == s;
    assert IsRun(worlds + [Next(s, l)], labels + [l]);
  }

  const FIRST: Job := Job(0, Processing, None, None, 0, Some(0))
  const TAKEN_OVER: Job := Job(0, Processing, None, None, 700, Some(700))

  /** The first worker is generating. */
  const ONE_WORKER: World :=
    World(map[0 := FIRST], map[], map[1 := Worker(0, Generating(FIRST))], map[], map[], map[], {0}, {})

  /** More than ten minutes later a new request found the lock stale, and its worker is generating too. */
  const TWO_WORKERS: World :=
    World(map[0 := TAKEN_OVER], map[], map[1 := Worker(0, Generating(FIRST)), 2 := Worker(0, Generating(TAKEN_OVER))],
          map[], map[], map[], {0}, {})

  /** The first worker has failed and read the row again, without a file. */
  const FIRST_FAILED: World :=
    TWO_WORKERS.(workers := map[1 := Worker(0, Recording(TAKEN_OVER)), 2 := Worker(0, Generating(TAKEN_OVER))])

  lemma OneWorkerReachable()
    ensures Reachable(ONE_WORKER)
  {
    ReachableEmpty();
    var s := EMPTY;
    ReachableNext(s, RequestRead(0, 0, 0, None));
    s := Next(s, RequestRead(0, 0, 0, None));
    ReachableNext(s, RequestCommit(0, 0, 0, Some(1)));
    s := Next(s, RequestCommit(0, 0, 0, Some(1)));
    assert s == World(map[0 := Job(0, Queued, None, None, 0, None)], map[], map[1 := Worker(0, Starting)], map[], map[], map[], {0}, {});
    ReachableNext(s, Load(1));
    s := Next(s, Load(1));
    ReachableNext(s, Mark(1, 0));
    s := Next(s, Mark(1, 0));
    assert s == World(map[0 := FIRST], map[], map[1 := Worker(0, Marked)], map[], map[], map[], {0}, {});
    ReachableNext(s, Refresh(1));
    assert Next(s, Refresh(1)) == ONE_WORKER;
  }

  /** The second request has put the row back in the queue and started a thread of its own. */
  const REQUEUED: World :=
    World(map[0 := Job(0, Queued, None, None, 700, None)], map[],
          map[1 := Worker(0, Generating(FIRST)), 2 := Worker(0, Starting)], map[], map[], map[], {0}, {})

  lemma RequeuedReachable()
    ensures Reachable(REQUEUED)
  {
    OneWorkerReachable();
    var s := ONE_WORKER;
    ReachableNext(s, RequestRead(0, 0, 700, Some(0)));
    s := Next(s, RequestRead(0, 0, 700, Some(0)));
    ReachableNext(s, RequestCommit(0, 700, 9, Some(2)));
    assert Next(s, RequestCommit(0, 700, 9, Some(2))) == REQUEUED;
  }

  lemma TwoWorkersReachable()
    ensures Reachable(TWO_WORKERS)
  {
    RequeuedReachable();
    var s := REQUEUED;
    ReachableNext(s, Load(2));
    s := Next(s, Load(2));
    ReachableNext(s, Mark(2, 700));
    s := Next(s, Mark(2, 700));
    assert s == World(map[0 := TAKEN_OVER], map[],
                      map[1 := Worker(0, Generating(FIRST)), 2 := Worker(0, Marked)], map[], map[], map[], {0}, {});
    ReachableNext(s, Refresh(2));
    assert Next(s, Refresh(2)) == TWO_WORKERS;
  }

  lemma FirstFailedReachable()
    ensures Reachable(FIRST_FAILED)
  {
    TwoWorkersReachable();
    var s := TWO_WORKERS;
    ReachableNext(s, Fail(1));
    s := Next(s, Fail(1));
    ReachableNext(s, Reread(1));
    s := Next(s, Reread(1));
    assert s.workers[1] == Worker(0, Undoing(None, TAKEN_OVER));
    ReachableNext(s, Undo(1, true));
    assert Next(s, Undo(1, true)) == FIRST_FAILED;
  }

  /** The second worker records its file, then the first records its failure: the row is failed, and has a file. */
  lemma TakeoverCanHideAFile()
    ensures exists s: World :: Reachable(s) && 0 in s.jobs && s.jobs[0].status.Failed? && s.jobs[0].key.Some?
  {
    FirstFailedReachable();
    var s := FIRST_FAILED;
    ReachableNext(s, Generated(2, 5, 10));
    s := Next(s, Generated(2, 5, 10));
    ReachableNext(s, Commit(2, true));
    s := Next(s, Commit(2, true));
    assert s.jobs[0] == Job(0, Done, Some(5), Some(10), 700, Some(700));
    ReachableNext(s, Record(1));
    s := Next(s, Record(1));
    assert s.jobs[0].status.Failed? && s.jobs[0].key.Some?;
  }

  // ----- The size of another file --------------------------------------------------------------------

  const WITH_FILE: Job := Job(0, Done, Some(1), Some(10), 0, Some(0))
  const AGAIN: Job := WITH_FILE.(status := Processing, requestedAt := 100, startedAt := Some(100))
  const AGAIN_TAKEN: Job := WITH_FILE.(status := Processing, requestedAt := 900, startedAt := Some(900))

  /** One file of ten bytes is there, and nobody is at work. */
  const ONE_FILE: World := World(map[0 := WITH_FILE], map[1 := 10], map[], map[], map[], map[1 := 0], {0}, {})

  lemma OneFileReachable()
    ensures Reachable(ONE_FILE)
  {
    OneWorkerReachable();
    var s := ONE_WORKER;
    ReachableNext(s, Generated(1, 1, 10));
    s := Next(s, Generated(1, 1, 10));
    ReachableNext(s, Commit(1, true));
    s := Next(s, Commit(1, true));
    assert s == ONE_FILE.(workers := map[1 := Worker(0, Cleaning(None))]);
    ReachableNext(s, DeleteOld(1, true));
    assert Next(s, DeleteOld(1, true)) == ONE_FILE;
  }

  /** A new file was asked for, and the first worker is generating. */
  const RENEWING: World := ONE_FILE.(jobs := map[0 := AGAIN], workers := map[1 := Worker(0, Generating(AGAIN))])

  lemma RenewingReachable()
    ensures Reachable(RENEWING)
  {
    OneFileReachable();
    RequestRuns(ONE_FILE, 100, 1, WITH_FILE);
    var queued := WITH_FILE.(status := Queued, requestedAt := 100, startedAt := None);
    WorkerStarts(ONE_FILE.(jobs := map[0 := queued], workers := map[1 := Worker(0, Starting)]), 100, 1, queued);
    assert (map[1 := Worker(0, Starting)])[1 := Worker(0, Generating(AGAIN))] == RENEWING.workers;
  }

  /** A request for a row that is not locked queues it again and starts a worker. */
  lemma RequestRuns(s: World, now: int, a: Agent, row: Job)
    requires Reachable(s) && s.requests == map[] && s.jobs == map[0 := row] && row.slot == 0 && !Locked(row, now) && a !in s.workers && 1 !in s.ids
    requires !row.status.Queued? && row.startedAt.Some?
    ensures Reachable(s.(jobs := map[0 := row.(status := Queued, requestedAt := now, startedAt := None)], workers := s.workers[a := Worker(0, Starting)]))
  {
    ReachableNext(s, RequestRead(0, 0, now, Some(0)));
    var t := Next(s, RequestRead(0, 0, now, Some(0)));
    ReachableNext(t, RequestCommit(0, now, 1, Some(a)));
    assert Next(t, RequestCommit(0, now, 1, Some(a)))
        == s.(jobs := map[0 := row.(status := Queued, requestedAt := now, startedAt := None)], workers := s.workers[a := Worker(0, Starting)]);
  }

  /** The worker loads the row, marks it and goes to work. */
  lemma WorkerStarts(s: World, now: int, a: Agent, row: Job)
    requires Reachable(s) && s.jobs == map[0 := row] && row.status.Queued? && a in s.workers && s.workers[a] == Worker(0, Starting)
    ensures var row' := row.(status := Processing, startedAt := Some(now));
            Reachable(s.(jobs := map[0 := row'], workers := s.workers[a := Worker(0, Generating(row'))]))
  {
    var row' := row.(status := Processing, startedAt := Some(now));
    ReachableNext(s, Load(a));
    var t := Next(s, Load(a));
    ReachableNext(t, Mark(a, now));
    var u := Next(t, Mark(a, now));
    assert u == s.(jobs := map[0 := row'], workers := s.workers[a := Worker(0, Marked)]);
    ReachableNext(u, Refresh(a));
    assert Next(u, Refresh(a)) == s.(jobs := map[0 := row'], workers := s.workers[a := Worker(0, Generating(row'))]);
  }

  /** Its lock has gone stale, and a second worker is generating too; both have seen the file of ten bytes. */
  const BOTH_RENEWING: World :=
    RENEWING.(jobs := map[0 := AGAIN_TAKEN], workers := map[1 := Worker(0, Generating(AGAIN)), 2 := Worker(0, Generating(AGAIN_TAKEN))])

  lemma BothRenewingReachable()
    ensures Reachable(BOTH_RENEWING)
  {
    RenewingReachable();
    RequestRuns(RENEWING, 900, 2, AGAIN);
    var queued := AGAIN.(status := Queued, requestedAt := 900, startedAt := None);
    var s := RENEWING.(jobs := map[0 := queued], workers := RENEWING.workers[2 := Worker(0, Starting)]);
    WorkerStarts(s, 900, 2, queued);
    assert s.workers[2 := Worker(0, Generating(AGAIN_TAKEN))] == BOTH_RENEWING.workers;
  }

  /** The second worker records twenty bytes, then the first records its ten: the row keeps twenty. */
  lemma TakeoverCanRecordAnotherSize()
    ensures exists s: World :: Reachable(s) && 0 in s.jobs && s.jobs[0].status.Done?
                               && s.jobs[0].key == Some(3) && s.jobs[0].size == Some(20) && 3 in s.bucket && s.bucket[3] == 10
  {
    BothRenewingReachable();
    var s := BOTH_RENEWING;
    ReachableNext(s, Generated(2, 2, 20));
    s := Next(s, Generated(2, 2, 20));
    ReachableNext(s, Commit(2, true));
    s := Next(s, Commit(2, true));
    assert s.jobs[0] == AGAIN_TAKEN.(status := Done, key := Some(2), size := Some(20));
    assert s.workers[1] == Worker(0, Generating(AGAIN));
    ReachableNext(s, Generated(1, 3, 10));
    s := Next(s, Generated(1, 3, 10));
    ReachableNext(s, Commit(1, true));
    s := Next(s, Commit(1, true));
    assert s.jobs[0].status.Done? && s.jobs[0].key == Some(3) && s.jobs[0].size == Some(20) && s.bucket[3] == 10;
  }

  // ----- Two workers on a fresh lock -----------------------------------------------------------------

  /** Two requests read the row before either commits: both pass the gate, and both start a worker. */
  lemma SimultaneousRequestsBothRun()
    ensures exists s: World :: Reachable(s) && !OneWorkerPerRow(s) && 0 in s.jobs && !IsStale(s.jobs[0], 100)
  {
    OneFileReachable();
    var s := ONE_FILE;
    ReachableNext(s, RequestRead(0, 0, 100, Some(0)));
    s := Next(s, RequestRead(0, 0, 100, Some(0)));
    ReachableNext(s, RequestRead(1, 0, 100, Some(0)));
    s := Next(s, RequestRead(1, 0, 100, Some(0)));
    assert s.requests == map[0 := Request(0, Some((0, WITH_FILE))), 1 := Request(0, Some((0, WITH_FILE)))];
    ReachableNext(s, RequestCommit(0, 100, 1, Some(1)));
    s := Next(s, RequestCommit(0, 100, 1, Some(1)));
    ReachableNext(s, RequestCommit(1, 100, 1, Some(2)));
    s := Next(s, RequestCommit(1, 100, 1, Some(2)));
    assert s.workers == map[1 := Worker(0, Starting), 2 := Worker(0, Starting)];
    assert s.workers[1].job == s.workers[2].job;
    assert !IsStale(s.jobs[0], 100);
  }

  /** A commit took effect and was reported as failed: while the handler still runs, the row is done and lets a request pass. */
  lemma HandlerDoesNotHoldTheRow()
    ensures exists s: World :: Reachable(s) && !OneWorkerPerRow(s) && 0 in s.jobs && !IsStale(s.jobs[0], 100)
  {
    OneWorkerReachable();
    var s := ONE_WORKER;
    ReachableNext(s, Generated(1, 1, 10));
    s := Next(s, Generated(1, 1, 10));
    ReachableNext(s, Commit(1, false));
    s := Next(s, Commit(1, false));
    assert s.jobs == map[0 := WITH_FILE] && s.workers == map[1 := Worker(0, Handling(Some(1)))];
    RequestRuns(s, 100, 2, WITH_FILE);
    s := s.(jobs := map[0 := WITH_FILE.(status := Queued, requestedAt := 100, startedAt := None)], workers := s.workers[2 := Worker(0, Starting)]);
    assert s.workers[1].job == s.workers[2].job;
    assert !IsStale(s.jobs[0], 100);
  }

  // ----- A file left behind --------------------------------------------------------------------------

  /** The row is deleted after the upload and before the commit; the handler finds no row, returns, and the file stays. */
  lemma EarlyReturnLeavesAFile()
    ensures exists s: World :: Reachable(s) && s.workers == map[] && s.deletions == map[] && s.jobs == map[] && 1 in s.bucket
  {
    OneWorkerReachable();
    var s := ONE_WORKER;
    ReachableNext(s, Generated(1, 1, 10));
    s := Next(s, Generated(1, 1, 10));
    ReachableNext(s, DeleteRead(0, 0));
    s := Next(s, DeleteRead(0, 0));
    ReachableNext(s, DeleteCommit(0));
    s := Next(s, DeleteCommit(0));
    assert s.jobs == map[] && s.deletions == map[] && s.workers == map[1 := Worker(0, Uploaded(FIRST, 1, 10))];
    ReachableNext(s, Commit(1, true));
    s := Next(s, Commit(1, true));
    ReachableNext(s, Reread(1));
    s := Next(s, Reread(1));
    assert s.workers == map[] && s.deletions == map[] && s.jobs == map[] && 1 in s.bucket;
  }
}
