/** When the lock on a row keeps a second worker off it. */
module ExportGate {
  import opened Basics
  import opened ExportProtocol
  import opened ExportSafety
  import opened ExportAccounts

  // ----- The gate ------------------------------------------------------------------------------------

  /**
   A request is turned away, and leaves everything as it was, exactly when its row is queued or processing and its work -
   counted from the request if it has not begun - is no older than ten minutes. Otherwise it notes what it has read.
   */
  lemma TurnedAwayIff(s: World, a: Agent, slot: nat, now: int, row: Option<JobId>)
    requires Enabled(s, RequestRead(a, slot, now, row))
    ensures var t := Next(s, RequestRead(a, slot, now, row));
            if row.Some? && (s.jobs[row.value].status.Queued? || s.jobs[row.value].status.Processing?)
               && now - (if s.jobs[row.value].startedAt.Some? then s.jobs[row.value].startedAt.value else s.jobs[row.value].requestedAt) <= 600
            then t == s
            else t == s.(requests := s.requests[a := Request(slot, if row.Some? then Some((row.value, s.jobs[row.value])) else None)])
  {
  }

  /** The request's commit on a row nobody has changed since: it is queued from now on, its work not begun, its file kept. */
  lemma QueuedAgain(s: World, a: Agent, now: int, newId: JobId, thread: Option<Agent>, id: JobId)
    requires Enabled(s, RequestCommit(a, now, newId, thread))
    requires id in s.jobs && s.requests[a].found == Some((id, s.jobs[id]))
    ensures var t, row := Next(s, RequestCommit(a, now, newId, thread)), s.jobs[id];
            t == s.(requests := s.requests - {a},
                    jobs := s.jobs[id := Job(row.slot, Queued, row.key, row.size, now, None)],
                    workers := if thread.Some? then s.workers[thread.value := Worker(id, Starting)] else s.workers)
  {
  }

  /** For a slot without a row, one is added, unless another request has done so; for a row that has gone, nothing is done. */
  lemma QueuedAnew(s: World, a: Agent, now: int, newId: JobId, thread: Option<Agent>)
    requires Enabled(s, RequestCommit(a, now, newId, thread))
    requires s.requests[a].found.Some? ==> s.requests[a].found.value.0 !in s.jobs
    ensures var t, slot := Next(s, RequestCommit(a, now, newId, thread)), s.requests[a].slot;
            if s.requests[a].found.Some? || exists id :: id in s.jobs && s.jobs[id].slot == slot then t == s.(requests := s.requests - {a})
            else
              t == s.(requests := s.requests - {a}, ids := s.ids + {newId},
                      jobs := s.jobs[newId := Job(slot, Queued, None, None, now, None)],
                      workers := if thread.Some? then s.workers[thread.value := Worker(newId, Starting)] else s.workers)
  {
  }

  /** Once a worker has marked its row, every request within the next ten minutes is turned away. */
  lemma MarkedIsLocked(s: World, w: Agent, now: int, a: Agent, later: int)
    requires Enabled(s, Mark(w, now)) && s.workers[w].job in s.jobs && later - now <= 600 && a !in s.requests
    requires s.workers[w].phase == Marking(s.jobs[s.workers[w].job].status)
    ensures var id, t := s.workers[w].job, Next(s, Mark(w, now));
            && id in t.jobs && t.jobs[id].status.Processing? && t.jobs[id].startedAt == Some(now)
            && Enabled(t, RequestRead(a, t.jobs[id].slot, later, Some(id)))
            && Next(t, RequestRead(a, t.jobs[id].slot, later, Some(id))) == t
  {
    hide AfterRead;
    hide IsStale;
    var id, t := s.workers[w].job, Next(s, Mark(w, now));
    TurnedAwayIff(t, a, t.jobs[id].slot, later, Some(id));
  }

  // ----- When it keeps a second worker off -----------------------------------------------------------

  /** No two requests of a tenant and kind are between their read and their commit at once. */
  ghost predicate OneRequestPerSlot(s: World) {
    forall a, b :: a in s.requests && b in s.requests && a != b ==> s.requests[a].slot != s.requests[b].slot
  }

  /**
   A request that finds a row with a worker on it comes before the lock is stale, and not while the failure handler
   still runs after a commit that took effect and was reported as failed.
   */
  ghost predicate Timely(s: World, l: Label) {
    l.RequestRead? && l.row.Some? && l.row.value in s.jobs ==>
      forall a :: a in s.workers && Busy(s.workers[a]) && s.workers[a].job == l.row.value ==>
        !IsStale(s.jobs[l.row.value], l.now) && !s.jobs[l.row.value].status.Done?
  }

  predicate InHandler(p: Phase) { p.Handling? || p.Undoing? || p.Recording? }

  /** A worker that may still write its row finds it locked, or done by itself. */
  predicate Holds(s: World, w: Worker) {
    Busy(w) && w.job in s.jobs ==> AtWork(s.jobs[w.job].status) || (InHandler(w.phase) && s.jobs[w.job].status.Done?)
  }

  /** The row a request has found is its slot's, as it was when it was read, and nobody is at work on it. */
  ghost predicate Clear(s: World, r: Request) {
    r.found.Some? ==>
      var (id, copy) := r.found.value;
      && (id in s.jobs ==> s.jobs[id].slot == r.slot && s.jobs[id].status == copy.status)
      && forall a :: a in s.workers && Busy(s.workers[a]) ==> s.workers[a].job != id
  }

  ghost predicate Gated(s: World) {
    && OneWorkerPerRow(s)
    && (forall a :: a in s.workers ==> Holds(s, s.workers[a]))
    && (forall a :: a in s.requests ==> Clear(s, s.requests[a]))
  }

  // ----- A worker's step -----------------------------------------------------------------------------

  /** One worker moves on the row it works on; it does not take the row up again once it has let go of it. */
  ghost predicate Moves(s: World, t: World, a: Agent) {
    && a in s.workers && t.requests == s.requests
    && (forall b :: b in t.workers && b != a ==> b in s.workers && t.workers[b] == s.workers[b])
    && (a in t.workers ==> t.workers[a].job == s.workers[a].job && (Busy(t.workers[a]) ==> Busy(s.workers[a])) && Holds(t, t.workers[a]))
    && (forall id :: id in t.jobs ==> id in s.jobs)
    && (forall id :: id in t.jobs && !(Busy(s.workers[a]) && s.workers[a].job == id) ==> t.jobs[id] == s.jobs[id])
  }

  lemma MovesGated(s: World, t: World, a: Agent)
    requires Gated(s) && Moves(s, t, a)
    ensures Gated(t)
  {
    forall b | b in t.workers ensures Holds(t, t.workers[b]) {
      if b != a { assert Holds(s, s.workers[b]); }
    }
    forall q | q in t.requests ensures Clear(t, t.requests[q]) {
      assert Clear(s, s.requests[q]);
    }
  }

  lemma LoadMoves(s: World, a: Agent)
    requires At(s, a) && s.workers[a].phase.Starting? && Holds(s, s.workers[a])
    ensures Moves(s, AfterLoad(s, a), a)
  {
  }

  lemma MarkMoves(s: World, a: Agent, now: int)
    requires At(s, a) && s.workers[a].phase.Marking? && Holds(s, s.workers[a])
    ensures Moves(s, AfterMark(s, a, now), a)
  {
  }

  lemma RefreshMoves(s: World, a: Agent)
    requires At(s, a) && s.workers[a].phase.Marked? && Holds(s, s.workers[a])
    ensures Moves(s, AfterRefresh(s, a), a)
  {
  }

  lemma UploadMoves(s: World, a: Agent, key: Key, bytes: nat)
    requires At(s, a) && s.workers[a].phase.Generating? && Holds(s, s.workers[a])
    ensures Moves(s, AfterUpload(s, a, key, bytes), a) && Moves(s, AfterLostUpload(s, a, key, bytes), a)
  {
  }

  lemma FailMoves(s: World, a: Agent)
    requires CanFail(s, a) && Holds(s, s.workers[a])
    ensures Moves(s, AfterFail(s, a), a)
  {
  }

  lemma CommitMoves(s: World, a: Agent, reported: bool)
    requires At(s, a) && s.workers[a].phase.Uploaded? && Holds(s, s.workers[a])
    ensures Moves(s, AfterCommit(s, a, reported), a)
  {
  }

  lemma DeleteOldMoves(s: World, a: Agent, ok: bool)
    requires At(s, a) && s.workers[a].phase.Cleaning?
    ensures Moves(s, AfterDeleteOld(s, a, ok), a)
  {
  }

  lemma RereadMoves(s: World, a: Agent)
    requires At(s, a) && s.workers[a].phase.Handling? && Holds(s, s.workers[a])
    ensures Moves(s, AfterReread(s, a), a)
  {
  }

  lemma UndoMoves(s: World, a: Agent, ok: bool)
    requires At(s, a) && s.workers[a].phase.Undoing? && Holds(s, s.workers[a])
    ensures Moves(s, AfterUndo(s, a, ok), a)
  {
  }

  lemma RecordMoves(s: World, a: Agent)
    requires At(s, a) && s.workers[a].phase.Recording?
    ensures Moves(s, AfterRecord(s, a), a)
  {
  }

  lemma DeathMoves(s: World, a: Agent)
    requires At(s, a)
    ensures Moves(s, AfterDeath(s, a), a)
  {
  }

  // ----- A request's steps ---------------------------------------------------------------------------

  /** The gate turns a request away while a worker holds the row. */
  lemma ReadGated(s: World, l: Label)
    requires Gated(s) && Enabled(s, l) && l.RequestRead? && Timely(s, l)
    ensures Gated(Next(s, l))
  {
    var t := AfterRead(s, l.a, l.slot, l.now, l.row);
    if t != s {
      if l.row.Some? {
        forall b | b in s.workers && Busy(s.workers[b]) ensures s.workers[b].job != l.row.value {
          assert Holds(s, s.workers[b]);
        }
      }
      forall a | a in t.requests ensures Clear(t, t.requests[a]) {
        if a != l.a { assert Clear(s, s.requests[a]); }
      }
      forall b | b in t.workers ensures Holds(t, t.workers[b]) { assert Holds(s, s.workers[b]); }
    }
  }

  lemma RefusedGated(s: World, a: Agent)
    requires Gated(s)
    ensures Gated(s.(requests := s.requests - {a}))
  {
    var t := s.(requests := s.requests - {a});
    forall b | b in t.workers ensures Holds(t, t.workers[b]) { assert Holds(s, s.workers[b]); }
    forall q | q in t.requests ensures Clear(t, t.requests[q]) { assert Clear(s, s.requests[q]); }
  }

  /** A commit that puts a worker on a row: the row is queued, no other worker is on it, and no other request has found it. */
  ghost predicate Takes(s: World, t: World, a: Agent, id: JobId) {
    && t.requests == s.requests - {a}
    && (forall j :: j in t.jobs && j != id ==> j in s.jobs && t.jobs[j] == s.jobs[j])
    && (id in t.jobs ==> t.jobs[id].status.Queued?)
    && (forall b :: b in t.workers ==> (b in s.workers && t.workers[b] == s.workers[b]) || t.workers[b] == Worker(id, Starting))
    && (forall b, c :: b in t.workers && c in t.workers && b != c && b !in s.workers ==> c in s.workers && t.workers[c] == s.workers[c])
    && (forall b :: b in s.workers && Busy(s.workers[b]) ==> s.workers[b].job != id)
    && (forall q :: q in t.requests && t.requests[q].found.Some? ==> t.requests[q].found.value.0 != id)
  }

  lemma TakesGated(s: World, t: World, a: Agent, id: JobId)
    requires Gated(s) && Takes(s, t, a, id) && forall b :: b in t.workers && b in s.workers ==> t.workers[b] == s.workers[b]
    ensures Gated(t)
  {
    forall b | b in t.workers ensures Holds(t, t.workers[b]) {
      if b in s.workers { assert Holds(s, s.workers[b]); }
    }
    forall q | q in t.requests ensures Clear(t, t.requests[q]) {
      assert Clear(s, s.requests[q]);
    }
  }

  /** No other request has found the row this one has: it would be of the same slot. */
  lemma FoundByOneOnly(s: World, a: Agent)
    requires Gated(s) && OneRequestPerSlot(s) && a in s.requests && s.requests[a].found.Some? && s.requests[a].found.value.0 in s.jobs
    ensures forall q :: q in s.requests && q != a && s.requests[q].found.Some? ==> s.requests[q].found.value.0 != s.requests[a].found.value.0
  {
    assert Clear(s, s.requests[a]);
    forall q | q in s.requests && q != a && s.requests[q].found.Some?
      ensures s.requests[q].found.value.0 != s.requests[a].found.value.0
    {
      assert Clear(s, s.requests[q]);
    }
  }

  lemma FoundRowTaken(s: World, a: Agent, now: int, newId: JobId, thread: Option<Agent>)
    requires Gated(s) && OneRequestPerSlot(s) && a in s.requests && (thread.Some? ==> thread.value !in s.workers)
    requires s.requests[a].found.Some? && s.requests[a].found.value.0 in s.jobs
    ensures Takes(s, AfterRequest(s, a, now, newId, thread), a, s.requests[a].found.value.0)
  {
    FoundByOneOnly(s, a);
    assert Clear(s, s.requests[a]);
  }

  lemma NewRowTaken(s: World, a: Agent, now: int, newId: JobId, thread: Option<Agent>)
    requires Safe(s) && a in s.requests && newId !in s.ids && (thread.Some? ==> thread.value !in s.workers)
    requires s.requests[a].found.None? && !(exists id :: id in s.jobs && s.jobs[id].slot == s.requests[a].slot)
    ensures Takes(s, AfterRequest(s, a, now, newId, thread), a, newId)
  {
    hide Safe;
    SafeParts(s);
    RequestIds(s);
    forall b | b in s.workers ensures s.workers[b].job != newId { WorkersJob(s, b); }
  }

  lemma CommitGated(s: World, a: Agent, now: int, newId: JobId, thread: Option<Agent>)
    requires Safe(s) && Gated(s) && OneRequestPerSlot(s) && a in s.requests && newId !in s.ids && (thread.Some? ==> thread.value !in s.workers)
    ensures Gated(AfterRequest(s, a, now, newId, thread))
  {
    hide Safe;
    hide Gated;
    hide Takes;
    var r, t := s.requests[a], AfterRequest(s, a, now, newId, thread);
    if r.found.Some? && r.found.value.0 in s.jobs {
      FoundRowTaken(s, a, now, newId, thread);
      TakesGated(s, t, a, r.found.value.0);
    } else if r.found.None? && !(exists id :: id in s.jobs && s.jobs[id].slot == r.slot) {
      NewRowTaken(s, a, now, newId, thread);
      TakesGated(s, t, a, newId);
    } else {
      RefusedGated(s, a);
    }
  }

  // ----- A deletion's steps --------------------------------------------------------------------------

  lemma DeletionGated(s: World, t: World)
    requires Gated(s) && t.workers == s.workers && t.requests == s.requests
    requires forall id :: id in t.jobs ==> id in s.jobs && t.jobs[id] == s.jobs[id]
    ensures Gated(t)
  {
    forall b | b in t.workers ensures Holds(t, t.workers[b]) { assert Holds(s, s.workers[b]); }
    forall q | q in t.requests ensures Clear(t, t.requests[q]) { assert Clear(s, s.requests[q]); }
  }

  // ----- Runs ----------------------------------------------------------------------------------------

  lemma WorkerStepGated(s: World, l: Label)
    requires Gated(s) && Enabled(s, l)
    requires l.Load? || l.Mark? || l.Refresh? || l.Generated? || l.UploadLost? || l.Fail? || l.Commit? || l.DeleteOld? || l.Reread? || l.Undo? || l.Record? || l.Die?
    ensures Gated(Next(s, l))
  {
    hide Moves;
    hide AfterLoad;
    hide AfterMark;
    hide AfterRefresh;
    hide AfterUpload;
    hide AfterLostUpload;
    hide AfterFail;
    hide AfterCommit;
    hide AfterDeleteOld;
    hide AfterReread;
    hide AfterUndo;
    hide AfterRecord;
    hide AfterDeath;
    assert Holds(s, s.workers[l.a]);
    match l {
      case Load(a) => LoadMoves(s, a);
      case Mark(a, now) => MarkMoves(s, a, now);
      case Refresh(a) => RefreshMoves(s, a);
      case Generated(a, key, bytes) => UploadMoves(s, a, key, bytes);
      case UploadLost(a, key, bytes) => UploadMoves(s, a, key, bytes);
      case Fail(a) => FailMoves(s, a);
      case Commit(a, reported) => CommitMoves(s, a, reported);
      case DeleteOld(a, ok) => DeleteOldMoves(s, a, ok);
      case Reread(a) => RereadMoves(s, a);
      case Undo(a, ok) => UndoMoves(s, a, ok);
      case Record(a) => RecordMoves(s, a);
      case Die(a) => DeathMoves(s, a);
    }
    MovesGated(s, Next(s, l), l.a);
  }

  lemma StepGated(s: World, l: Label)
    requires Safe(s) && Gated(s) && OneRequestPerSlot(s) && Timely(s, l) && Enabled(s, l)
    ensures Gated(Next(s, l))
  {
    hide Safe;
    hide Gated;
    hide AfterRequest;
    match l
    case RequestRead(_, _, _, _) => ReadGated(s, l);
    case RequestRefused(a) => RefusedGated(s, a);
    case RequestCommit(a, now, newId, thread) => CommitGated(s, a, now, newId, thread);
    case DeleteRead(a, job) => DeletionGated(s, AfterDeleteRead(s, a, job));
    case DeleteCommit(a) => DeletionGated(s, AfterDelete(s, a));
    case DeleteFile(a, ok) => DeletionGated(s, AfterDeleteFile(s, a, ok));
    case DeleteDies(a) => DeletionGated(s, AfterDeleteFile(s, a, false));
    case _ => WorkerStepGated(s, l);
  }

  /**
   The gate keeps a second worker off a row when requests of a slot follow one another from read to commit, and none
   that finds a worker on the row comes after the lock has gone stale or while a handler runs on a row that is done.
   */
  lemma {:induction false} GateKeepsOneWorker(worlds: seq<World>, labels: seq<Label>, i: nat)
    requires IsRun(worlds, labels) && i < |worlds|
    requires forall k :: 0 <= k < i ==> OneRequestPerSlot(worlds[k]) && Timely(worlds[k], labels[k])
    ensures Gated(worlds[i]) && OneWorkerPerRow(worlds[i])
  {
    hide Safe;
    hide Next;
    hide Enabled;
    hide Timely;
    if i > 0 {
      GateKeepsOneWorker(worlds, labels, i - 1);
      NothingEverDangles(worlds, labels, i - 1);
      StepGated(worlds[i - 1], labels[i - 1]);
    }
  }

  /** So in such runs status, key and size of every row agree with the bucket. */
  lemma GatedRowsAreCoherent(worlds: seq<World>, labels: seq<Label>, i: nat)
    requires IsRun(worlds, labels) && i < |worlds|
    requires forall k :: 0 <= k < i ==> OneRequestPerSlot(worlds[k]) && Timely(worlds[k], labels[k])
    ensures Coherent(worlds[i])
  {
    hide Coherent;
    forall k | 0 <= k < i ensures OneWorkerPerRow(worlds[k]) { GateKeepsOneWorker(worlds, labels, k); }
    OneWorkerKeepsRowsCoherent(worlds, labels, i);
  }
}
