/**
 What the protocol does with files and statuses: which files can be left behind, what holds with one live
 worker per row, and exactly what a second worker can break.
 */
module ExportAccounts {
  import opened Basics
  import opened ExportProtocol
  import opened ExportSafety

  // ----- Only a successful commit touches the file of a row ------------------------------------------

  /** Every row that was there and still is records the same file. */
  ghost predicate SameFiles(s: World, t: World) {
    forall id :: id in s.jobs && id in t.jobs ==> t.jobs[id].key == s.jobs[id].key && t.jobs[id].size == s.jobs[id].size
  }

  lemma MarkKeepsFiles(s: World, a: Agent, now: int)
    requires At(s, a) && s.workers[a].phase.Marking?
    ensures SameFiles(s, AfterMark(s, a, now))
  {
  }

  lemma RecordKeepsFiles(s: World, a: Agent)
    requires At(s, a) && s.workers[a].phase.Recording?
    ensures SameFiles(s, AfterRecord(s, a))
  {
  }

  lemma RequestKeepsFiles(s: World, a: Agent, now: int, newId: JobId, thread: Option<Agent>)
    requires a in s.requests && newId !in s.jobs
    ensures SameFiles(s, AfterRequest(s, a, now, newId, thread))
  {
  }

  /** Queries leave everything but their own notes as it was. */
  lemma ReadsTouchNothing(s: World, l: Label)
    requires Enabled(s, l) && (l.RequestRead? || l.RequestRefused? || l.DeleteRead?)
    ensures var t := Next(s, l); t == s.(requests := t.requests, deletions := t.deletions)
  {
    hide Locked;
  }

  /** So do a worker's queries, and an exception before anything was written. */
  lemma MovesTouchNothing(s: World, l: Label)
    requires Enabled(s, l) && (l.Load? || l.Refresh? || l.Fail?)
    ensures var t := Next(s, l); t == s.(workers := t.workers)
  {
  }

  lemma UploadsKeepRows(s: World, l: Label)
    requires Enabled(s, l) && (l.Generated? || l.UploadLost?)
    ensures Next(s, l).jobs == s.jobs && (l.Generated? ==> Next(s, l).lost == s.lost)
  {
  }

  /** Storage calls that delete, or fail to, change no row. */
  lemma DropsKeepRows(s: World, a: Agent, ok: bool)
    requires At(s, a)
    ensures s.workers[a].phase.Cleaning? ==> AfterDeleteOld(s, a, ok).jobs == s.jobs
    ensures s.workers[a].phase.Handling? ==> AfterReread(s, a).jobs == s.jobs
    ensures s.workers[a].phase.Undoing? ==> AfterUndo(s, a, ok).jobs == s.jobs
    ensures AfterDeath(s, a).jobs == s.jobs
  {
    hide Referenced;
    hide Burden;
  }

  lemma CleanupsKeepRows(s: World, l: Label)
    requires Enabled(s, l) && (l.DeleteOld? || l.Reread? || l.Undo? || l.Die?)
    ensures Next(s, l).jobs == s.jobs
  {
    hide AfterDeleteOld;
    hide AfterReread;
    hide AfterUndo;
    hide AfterDeath;
    DropsKeepRows(s, l.a, if l.DeleteOld? || l.Undo? then l.ok else true);
  }

  lemma FileDeletionKeepsRows(s: World, a: Agent, ok: bool)
    requires a in s.deletions
    ensures AfterDeleteFile(s, a, ok).jobs == s.jobs
  {
    hide Referenced;
  }

  lemma DeletionsKeepFiles(s: World, l: Label)
    requires Enabled(s, l) && (l.DeleteCommit? || l.DeleteFile? || l.DeleteDies?)
    ensures SameFiles(s, Next(s, l))
  {
    hide AfterDeleteFile;
    if l.DeleteFile? { FileDeletionKeepsRows(s, l.a, l.ok); }
    if l.DeleteDies? { FileDeletionKeepsRows(s, l.a, false); }
  }

  lemma CommitsKeepFiles(s: World, l: Label)
    requires Safe(s) && Enabled(s, l) && (l.RequestCommit? || l.Mark? || l.Record?)
    ensures SameFiles(s, Next(s, l))
  {
    hide SameFiles;
    hide Safe;
    hide AfterRequest;
    hide AfterMark;
    hide AfterRecord;
    SafeRows(s);
    if l.RequestCommit? {
      RequestKeepsFiles(s, l.a, l.now, l.newId, l.thread);
    } else if l.Mark? {
      MarkKeepsFiles(s, l.a, l.now);
    } else {
      RecordKeepsFiles(s, l.a);
    }
  }

  /** Requests, rejections, failures, takeovers: none of them alters the key or the size a row records. */
  lemma OnlyCommitsChangeTheFile(s: World, l: Label)
    requires Safe(s) && Enabled(s, l) && !l.Commit?
    ensures SameFiles(s, Next(s, l))
  {
    hide Safe;
    hide Enabled;
    hide Next;
    if l.RequestCommit? || l.Mark? || l.Record? {
      CommitsKeepFiles(s, l);
    } else if l.RequestRead? || l.RequestRefused? || l.DeleteRead? {
      ReadsTouchNothing(s, l);
    } else if l.DeleteCommit? || l.DeleteFile? || l.DeleteDies? {
      DeletionsKeepFiles(s, l);
    } else if l.Load? || l.Refresh? || l.Fail? {
      MovesTouchNothing(s, l);
    } else if l.Generated? || l.UploadLost? {
      UploadsKeepRows(s, l);
    } else {
      CleanupsKeepRows(s, l);
    }
  }

  /** A request that is turned away - at the gate or by a later check - leaves every row as it was. */
  lemma RejectedRequestsChangeNoRow(s: World, l: Label)
    requires Enabled(s, l) && (l.RequestRead? || l.RequestRefused?)
    ensures Next(s, l).jobs == s.jobs && Next(s, l).workers == s.workers
    ensures l.RequestRead? && l.row.Some? && Locked(s.jobs[l.row.value], l.now) ==> Next(s, l) == s
  {
  }

  // ----- No file is forgotten without a trace --------------------------------------------------------

  ghost predicate Carried(s: World, k: Key) {
    || (exists a :: a in s.workers && Burden(s.workers[a].phase) == Some(k))
    || (exists a :: a in s.deletions && s.deletions[a] == DeletingFile(k))
  }

  /** Somebody still knows about the file, or it is on the list of lost ones. */
  ghost predicate Known(s: World, k: Key) { Referenced(s, k) || k in s.lost || Carried(s, k) }

  ghost predicate Accounted(s: World) { forall k :: k in s.bucket ==> Known(s, k) }

  lemma CarriedBy(s: World, a: Agent, k: Key)
    requires a in s.workers && Burden(s.workers[a].phase) == Some(k)
    ensures Carried(s, k)
  {
  }

  lemma DeletedBy(s: World, a: Agent, k: Key)
    requires a in s.deletions && s.deletions[a] == DeletingFile(k)
    ensures Carried(s, k)
  {
  }

  /** One agent moves: everybody else still carries what they carried, so only its own burden and the rows matter. */
  lemma StillAccounted(s: World, t: World, a: Agent)
    requires Accounted(s) && s.lost <= t.lost
    requires forall b :: b in s.workers && b != a ==> b in t.workers && t.workers[b] == s.workers[b]
    requires forall b :: b in s.deletions && b != a ==> b in t.deletions && t.deletions[b] == s.deletions[b]
    requires forall k :: k in t.bucket && k !in s.bucket ==> Known(t, k)
    requires forall k :: Referenced(s, k) ==> Known(t, k)
    requires a in s.workers && Burden(s.workers[a].phase).Some? ==>
               Burden(s.workers[a].phase).value !in t.bucket || Known(t, Burden(s.workers[a].phase).value)
    requires a in s.deletions && s.deletions[a].DeletingFile? ==> s.deletions[a].file !in t.bucket || Known(t, s.deletions[a].file)
    ensures Accounted(t)
  {
    forall k | k in t.bucket ensures Known(t, k) {
      if k in s.bucket {
        assert Known(s, k);
        if Carried(s, k) && !Referenced(s, k) && k !in s.lost {
          if b :| b in s.workers && Burden(s.workers[b].phase) == Some(k) {
            if b != a { CarriedBy(t, b, k); }
          } else {
            var b :| b in s.deletions && s.deletions[b] == DeletingFile(k);
            if b != a { DeletedBy(t, b, k); }
          }
        }
      }
    }
  }

  lemma BurdenMoves(s: World, t: World, a: Agent)
    requires Accounted(s) && a in s.workers && SameKeys(s, t) && s.lost <= t.lost && t.deletions == s.deletions
    requires t.bucket.Keys <= s.bucket.Keys
    requires forall b :: b in s.workers && b != a ==> b in t.workers && t.workers[b] == s.workers[b]
    requires Burden(s.workers[a].phase).Some? ==>
               || Burden(s.workers[a].phase).value !in t.bucket
               || Burden(s.workers[a].phase).value in t.lost
               || Referenced(t, Burden(s.workers[a].phase).value)
               || (a in t.workers && Burden(t.workers[a].phase) == Burden(s.workers[a].phase))
    ensures Accounted(t)
  {
    var k := Burden(s.workers[a].phase);
    if k.Some? && a in t.workers && Burden(t.workers[a].phase) == k { CarriedBy(t, a, k.value); }
    forall j | Referenced(s, j) ensures Known(t, j) { assert Referenced(t, j); }
    if a in s.deletions && s.deletions[a].DeletingFile? { DeletedBy(t, a, s.deletions[a].file); }
    StillAccounted(s, t, a);
  }

  ghost predicate CanFail(s: World, a: Agent) {
    At(s, a) && (s.workers[a].phase.Marking? || s.workers[a].phase.Marked? || s.workers[a].phase.Generating? || s.workers[a].phase.Uploaded?)
  }

  lemma LoadAccounted(s: World, a: Agent)
    requires Accounted(s) && At(s, a) && s.workers[a].phase.Starting?
    ensures Accounted(AfterLoad(s, a))
  {
    hide Accounted;
    hide Referenced;
    BurdenMoves(s, AfterLoad(s, a), a);
  }

  lemma MarkAccounted(s: World, a: Agent, now: int)
    requires Accounted(s) && At(s, a) && s.workers[a].phase.Marking?
    ensures Accounted(AfterMark(s, a, now))
  {
    hide Accounted;
    hide Referenced;
    BurdenMoves(s, AfterMark(s, a, now), a);
  }

  lemma RefreshAccounted(s: World, a: Agent)
    requires Accounted(s) && At(s, a) && s.workers[a].phase.Marked?
    ensures Accounted(AfterRefresh(s, a))
  {
    hide Accounted;
    hide Referenced;
    BurdenMoves(s, AfterRefresh(s, a), a);
  }

  lemma FailAccounted(s: World, a: Agent)
    requires Accounted(s) && CanFail(s, a)
    ensures Accounted(AfterFail(s, a))
  {
    hide Accounted;
    hide Referenced;
    BurdenMoves(s, AfterFail(s, a), a);
  }

  /** Dropping a burden: the file is deleted, or else written down as lost if no row refers to it. */
  lemma DroppedIsKnown(s: World, key: Option<Key>, ok: bool)
    ensures var t := if ok then Without(s, key) else Losing(s, key);
            && t.jobs == s.jobs && t.owner == s.owner && t.ids == s.ids && t.workers == s.workers && t.deletions == s.deletions
            && s.lost <= t.lost && t.bucket.Keys <= s.bucket.Keys
            && (key.Some? ==> key.value !in t.bucket || key.value in t.lost || Referenced(s, key.value))
  {
  }

  lemma DeleteOldAccounted(s: World, a: Agent, ok: bool)
    requires Accounted(s) && At(s, a) && s.workers[a].phase.Cleaning?
    ensures Accounted(AfterDeleteOld(s, a, ok))
  {
    hide Accounted;
    hide Losing;
    hide Without;
    DroppedIsKnown(s, s.workers[a].phase.previous, ok);
    BurdenMoves(s, AfterDeleteOld(s, a, ok), a);
  }

  lemma RereadAccounted(s: World, a: Agent)
    requires Safe(s) && Accounted(s) && At(s, a) && s.workers[a].phase.Handling?
    ensures Accounted(AfterReread(s, a))
  {
    hide Accounted;
    hide Safe;
    hide RowSafe;
    hide Losing;
    SafeWorker(s, a);
    DroppedIsKnown(s, s.workers[a].phase.made, false);
    BurdenMoves(s, AfterReread(s, a), a);
  }

  lemma UndoAccounted(s: World, a: Agent, ok: bool)
    requires Accounted(s) && At(s, a) && s.workers[a].phase.Undoing?
    ensures Accounted(AfterUndo(s, a, ok))
  {
    hide Accounted;
    hide Losing;
    hide Without;
    DroppedIsKnown(s, Burden(s.workers[a].phase), ok);
    BurdenMoves(s, AfterUndo(s, a, ok), a);
  }

  lemma RecordAccounted(s: World, a: Agent)
    requires Accounted(s) && At(s, a) && s.workers[a].phase.Recording?
    ensures Accounted(AfterRecord(s, a))
  {
    hide Accounted;
    hide Referenced;
    BurdenMoves(s, AfterRecord(s, a), a);
  }

  lemma DeathAccounted(s: World, a: Agent)
    requires Accounted(s) && At(s, a)
    ensures Accounted(AfterDeath(s, a))
  {
    hide Accounted;
    BurdenMoves(s, AfterDeath(s, a), a);
  }

  lemma UploadAccounted(s: World, a: Agent, key: Key, bytes: nat, t: World)
    requires Safe(s) && Accounted(s) && At(s, a) && s.workers[a].phase.Generating? && key !in s.owner
    requires t == AfterUpload(s, a, key, bytes) || t == AfterLostUpload(s, a, key, bytes)
    ensures Accounted(t)
  {
    hide Safe;
    hide Accounted;
    RowKeysKnown(s);
    if t == AfterUpload(s, a, key, bytes) { CarriedBy(t, a, key); }
    if a in s.deletions && s.deletions[a].DeletingFile? { DeletedBy(t, a, s.deletions[a].file); }
    forall j | Referenced(s, j) ensures Known(t, j) { assert Referenced(t, j); }
    StillAccounted(s, t, a);
  }

  lemma CommitAccounted(s: World, a: Agent, reported: bool)
    requires Safe(s) && Accounted(s) && At(s, a) && s.workers[a].phase.Uploaded?
    ensures Accounted(AfterCommit(s, a, reported))
  {
    hide Safe;
    hide Accounted;
    hide RowSafe;
    SafeWorker(s, a);
    var t, w := AfterCommit(s, a, reported), s.workers[a];
    if w.job !in s.jobs {
      BurdenMoves(s, t, a);
    } else {
      assert Referenced(t, w.phase.newKey);
      forall j | Referenced(s, j) ensures Known(t, j) {
        if s.owner[j] == w.job && Some(j) == w.phase.copy.key && reported {
          CarriedBy(t, a, j);
        } else if s.owner[j] != w.job {
          assert Referenced(t, j);
        }
      }
      if a in s.deletions && s.deletions[a].DeletingFile? { DeletedBy(t, a, s.deletions[a].file); }
      StillAccounted(s, t, a);
    }
  }

  lemma RequestedAccounted(s: World, t: World)
    requires Accounted(s) && t.bucket == s.bucket && t.owner == s.owner && t.lost == s.lost && t.deletions == s.deletions
    requires forall id :: id in s.jobs ==> id in t.jobs && t.jobs[id].key == s.jobs[id].key
    requires forall b :: b in s.workers ==> b in t.workers && t.workers[b] == s.workers[b]
    ensures Accounted(t)
  {
    forall k | k in t.bucket ensures Known(t, k) {
      assert Known(s, k);
      if Carried(s, k) { SameCarriers(s, t, k); }
    }
  }

  /** What every request's commit leaves alone: files, keys of rows, and the workers there are. */
  ghost predicate RequestTouches(s: World, t: World) {
    && t.bucket == s.bucket && t.owner == s.owner && t.lost == s.lost && t.deletions == s.deletions
    && (forall id :: id in t.jobs ==> t.jobs[id].key.None? || (id in s.jobs && t.jobs[id].key == s.jobs[id].key))
    && (forall b :: b in s.workers ==> b in t.workers && t.workers[b] == s.workers[b])
    && (forall b :: b in t.workers ==> b in s.workers || t.workers[b].phase.Starting?)
  }

  lemma FoundRowTouches(s: World, a: Agent, now: int, newId: JobId, thread: Option<Agent>)
    requires a in s.requests && s.requests[a].found.Some? && (thread.Some? ==> thread.value !in s.workers)
    ensures var t := AfterRequest(s, a, now, newId, thread);
            RequestTouches(s, t) && forall id :: id in s.jobs ==> id in t.jobs && t.jobs[id].key == s.jobs[id].key
  {
    hide Written;
  }

  lemma NewRowTouches(s: World, a: Agent, now: int, newId: JobId, thread: Option<Agent>)
    requires a in s.requests && s.requests[a].found.None? && (thread.Some? ==> thread.value !in s.workers)
    ensures var t := AfterRequest(s, a, now, newId, thread);
            RequestTouches(s, t) && (newId !in s.jobs ==> forall id :: id in s.jobs ==> id in t.jobs && t.jobs[id].key == s.jobs[id].key)
  {
  }

  lemma RequestAccounted(s: World, a: Agent, now: int, newId: JobId, thread: Option<Agent>)
    requires Accounted(s) && a in s.requests && newId !in s.jobs && (thread.Some? ==> thread.value !in s.workers)
    ensures Accounted(AfterRequest(s, a, now, newId, thread))
  {
    hide Accounted;
    hide AfterRequest;
    if s.requests[a].found.Some? { FoundRowTouches(s, a, now, newId, thread); } else { NewRowTouches(s, a, now, newId, thread); }
    RequestedAccounted(s, AfterRequest(s, a, now, newId, thread));
  }

  lemma SameCarriers(s: World, t: World, k: Key)
    requires Carried(s, k) && t.deletions == s.deletions
    requires forall b :: b in s.workers ==> b in t.workers && t.workers[b] == s.workers[b]
    ensures Carried(t, k)
  {
    if b :| b in s.workers && Burden(s.workers[b].phase) == Some(k) {
      CarriedBy(t, b, k);
    } else {
      var b :| b in s.deletions && s.deletions[b] == DeletingFile(k);
      DeletedBy(t, b, k);
    }
  }

  lemma DeleteCommitAccounted(s: World, a: Agent)
    requires Accounted(s) && a in s.deletions && s.deletions[a].DeletingRow?
    ensures Accounted(AfterDelete(s, a))
  {
    hide Accounted;
    var t := AfterDelete(s, a);
    if a in s.workers && Burden(s.workers[a].phase).Some? { CarriedBy(t, a, Burden(s.workers[a].phase).value); }
    forall j | Referenced(s, j) ensures Known(t, j) {
      if s.owner[j] == s.deletions[a].job {
        if s.deletions[a].key == Some(j) { DeletedBy(t, a, j); }
      } else {
        assert Referenced(t, j);
      }
    }
    StillAccounted(s, t, a);
  }

  lemma DeleteReadAccounted(s: World, a: Agent, job: JobId)
    requires Accounted(s) && job in s.jobs && a !in s.deletions
    ensures Accounted(AfterDeleteRead(s, a, job))
  {
    hide Accounted;
    var t := AfterDeleteRead(s, a, job);
    if a in s.workers && Burden(s.workers[a].phase).Some? { CarriedBy(t, a, Burden(s.workers[a].phase).value); }
    forall j | Referenced(s, j) ensures Known(t, j) { assert Referenced(t, j); }
    StillAccounted(s, t, a);
  }

  lemma DeleteFileAccounted(s: World, a: Agent, ok: bool)
    requires Accounted(s) && a in s.deletions
    ensures Accounted(AfterDeleteFile(s, a, ok))
  {
    hide Accounted;
    var t := AfterDeleteFile(s, a, ok);
    if a in s.workers && Burden(s.workers[a].phase).Some? { CarriedBy(t, a, Burden(s.workers[a].phase).value); }
    forall j | Referenced(s, j) ensures Known(t, j) { assert Referenced(t, j); }
    StillAccounted(s, t, a);
  }

  lemma StepAccounted(s: World, l: Label)
    requires Safe(s) && Accounted(s) && Enabled(s, l)
    ensures Accounted(Next(s, l))
  {
    hide Safe;
    hide Accounted;
    SafeRows(s);
    match l
    case RequestRead(a, slot, now, row) => RequestedAccounted(s, AfterRead(s, a, slot, now, row));
    case RequestRefused(a) => RequestedAccounted(s, s.(requests := s.requests - {a}));
    case RequestCommit(a, now, newId, thread) => RequestAccounted(s, a, now, newId, thread);
    case Generated(a, key, bytes) => UploadAccounted(s, a, key, bytes, AfterUpload(s, a, key, bytes));
    case UploadLost(a, key, bytes) => UploadAccounted(s, a, key, bytes, AfterLostUpload(s, a, key, bytes));
    case Commit(a, reported) => CommitAccounted(s, a, reported);
    case Load(a) => LoadAccounted(s, a);
    case Mark(a, now) => MarkAccounted(s, a, now);
    case Refresh(a) => RefreshAccounted(s, a);
    case Fail(a) => FailAccounted(s, a);
    case DeleteOld(a, ok) => DeleteOldAccounted(s, a, ok);
    case Reread(a) => RereadAccounted(s, a);
    case Undo(a, ok) => UndoAccounted(s, a, ok);
    case Record(a) => RecordAccounted(s, a);
    case Die(a) => DeathAccounted(s, a);
    case DeleteRead(a, job) => DeleteReadAccounted(s, a, job);
    case DeleteCommit(a) => DeleteCommitAccounted(s, a);
    case DeleteFile(a, ok) => DeleteFileAccounted(s, a, ok);
    case DeleteDies(a) => DeleteFileAccounted(s, a, false);
  }

  /**
   In every interleaving, a file in the bucket is referred to by a row, on somebody's hands, or on the list of
   lost files. So when all workers and deletions are through, the files no row refers to are lost ones.
   */
  lemma {:induction false} EveryFileIsAccountedFor(worlds: seq<World>, labels: seq<Label>, i: nat)
    requires IsRun(worlds, labels) && i < |worlds|
    ensures Accounted(worlds[i])
    ensures worlds[i].workers == map[] && worlds[i].deletions == map[] ==>
              forall k :: k in worlds[i].bucket && !Referenced(worlds[i], k) ==> k in worlds[i].lost
  {
    if i > 0 {
      EveryFileIsAccountedFor(worlds, labels, i - 1);
      NothingEverDangles(worlds, labels, i - 1);
      StepAccounted(worlds[i - 1], labels[i - 1]);
    }
    forall k | k in worlds[i].bucket && worlds[i].workers == map[] && worlds[i].deletions == map[]
      ensures Referenced(worlds[i], k) || k in worlds[i].lost
    {
      assert Known(worlds[i], k);
    }
  }

  // ----- With one live worker per row ----------------------------------------------------------------

  /** The worker may still write its row: it is past that once it only has the old file to delete. */
  predicate Busy(w: Worker) { !w.phase.Cleaning? }

  ghost predicate OneWorkerPerRow(s: World) {
    forall a, b :: a in s.workers && b in s.workers && a != b && Busy(s.workers[a]) && Busy(s.workers[b]) ==>
      s.workers[a].job != s.workers[b].job
  }

  predicate AtWork(status: Status) { status.Queued? || status.Processing? }

  /** Failed means no file, and the recorded size is the size of the file in the bucket. */
  ghost predicate RowCoherent(s: World, id: JobId)
    requires id in s.jobs
  {
    var row := s.jobs[id];
    && (row.status.Failed? ==> row.key.None?)
    && (row.key.Some? ==> row.key.value in s.bucket && row.size == Some(s.bucket[row.key.value]))
  }

  /** The worker's copy of the row agrees with the row in everything it decides on. */
  ghost predicate CopyCoherent(s: World, w: Worker) {
    w.job in s.jobs ==>
      var row := s.jobs[w.job];
      match w.phase
      case Marking(seen) => seen.Processing? ==> AtWork(row.status)
      case Marked => AtWork(row.status)
      case Generating(copy) => AtWork(copy.status) && copy.key == row.key && copy.size == row.size
      case Uploaded(copy, k, bytes) =>
        AtWork(copy.status) && copy.key == row.key && copy.size == row.size && k in s.bucket && s.bucket[k] == bytes
      case Undoing(made, copy) => copy.key == row.key
      case Recording(copy) => copy.key == row.key
      case _ => true
  }

  ghost predicate Coherent(s: World) {
    && (forall id :: id in s.jobs ==> RowCoherent(s, id))
    && (forall a :: a in s.workers ==> CopyCoherent(s, s.workers[a]))
  }

  /** The files of the rows are kept, and other workers see their rows' files unchanged; only the mover's own row may change more. */
  ghost predicate OthersUndisturbed(s: World, t: World, a: Agent) {
    && (forall b :: b in t.workers && b != a ==> b in s.workers && t.workers[b] == s.workers[b])
    && (forall k :: k in s.bucket && k in t.bucket ==> t.bucket[k] == s.bucket[k])
    && (forall id :: id in t.jobs ==> id in s.jobs)
    && (forall id :: id in t.jobs && !(a in s.workers && s.workers[a].job == id) ==> t.jobs[id] == s.jobs[id])
  }

  lemma MoverCoherent(s: World, t: World, a: Agent)
    requires Safe(s) && Safe(t) && Coherent(s) && OneWorkerPerRow(s) && OthersUndisturbed(s, t, a)
    requires a in s.workers && !Busy(s.workers[a]) ==> t.jobs == s.jobs
    requires a in s.workers && s.workers[a].job in t.jobs ==> RowCoherent(t, s.workers[a].job)
    requires a in t.workers ==> CopyCoherent(t, t.workers[a])
    ensures Coherent(t)
  {
    NothingDanglesIn(t);
    forall id | id in t.jobs ensures RowCoherent(t, id) {
      if !(a in s.workers && s.workers[a].job == id) { assert RowCoherent(s, id); }
    }
    forall b | b in t.workers ensures CopyCoherent(t, t.workers[b]) {
      if b != a {
        assert CopyCoherent(s, s.workers[b]);
        assert WorkerSafe(t, t.workers[b]);
        assert a in s.workers && Busy(s.workers[a]) && Busy(s.workers[b]) ==> s.workers[a].job != s.workers[b].job;
      }
    }
  }

  lemma NothingDanglesIn(s: World)
    requires Safe(s)
    ensures NothingDangles(s)
  {
    forall id | id in s.jobs && s.jobs[id].key.Some? ensures s.jobs[id].key.value in s.bucket { assert RowSafe(s, id); }
  }

  lemma CoherentParts(s: World, a: Agent)
    requires Safe(s) && Coherent(s) && a in s.workers
    ensures CopyCoherent(s, s.workers[a])
    ensures s.workers[a].job in s.jobs ==> RowCoherent(s, s.workers[a].job)
  {
  }

  lemma LoadCoherent(s: World, a: Agent)
    requires Safe(s) && Coherent(s) && OneWorkerPerRow(s) && At(s, a)
    requires Safe(AfterLoad(s, a))
    ensures Coherent(AfterLoad(s, a))
  {
    hide Safe;
    hide Coherent;
    hide OneWorkerPerRow;
    CoherentParts(s, a);
    NothingDanglesIn(s);
    MoverCoherent(s, AfterLoad(s, a), a);
  }

  lemma MarkCoherent(s: World, a: Agent, now: int)
    requires Safe(s) && Coherent(s) && OneWorkerPerRow(s) && At(s, a) && s.workers[a].phase.Marking?
    requires Safe(AfterMark(s, a, now))
    ensures Coherent(AfterMark(s, a, now))
  {
    hide Safe;
    hide Coherent;
    hide OneWorkerPerRow;
    CoherentParts(s, a);
    NothingDanglesIn(s);
    MoverCoherent(s, AfterMark(s, a, now), a);
  }

  lemma RefreshCoherent(s: World, a: Agent)
    requires Safe(s) && Coherent(s) && OneWorkerPerRow(s) && At(s, a) && s.workers[a].phase.Marked?
    requires Safe(AfterRefresh(s, a))
    ensures Coherent(AfterRefresh(s, a))
  {
    hide Safe;
    hide Coherent;
    hide OneWorkerPerRow;
    CoherentParts(s, a);
    NothingDanglesIn(s);
    MoverCoherent(s, AfterRefresh(s, a), a);
  }

  lemma FailCoherent(s: World, a: Agent)
    requires Safe(s) && Coherent(s) && OneWorkerPerRow(s) && CanFail(s, a)
    requires Safe(AfterFail(s, a))
    ensures Coherent(AfterFail(s, a))
  {
    hide Safe;
    hide Coherent;
    hide OneWorkerPerRow;
    CoherentParts(s, a);
    NothingDanglesIn(s);
    MoverCoherent(s, AfterFail(s, a), a);
  }

  lemma DeleteOldCoherent(s: World, a: Agent, ok: bool)
    requires Safe(s) && Coherent(s) && OneWorkerPerRow(s) && At(s, a) && s.workers[a].phase.Cleaning?
    requires Safe(AfterDeleteOld(s, a, ok))
    ensures Coherent(AfterDeleteOld(s, a, ok))
  {
    hide Safe;
    hide Coherent;
    hide OneWorkerPerRow;
    CoherentParts(s, a);
    NothingDanglesIn(AfterDeleteOld(s, a, ok));
    MoverCoherent(s, AfterDeleteOld(s, a, ok), a);
  }

  lemma RereadCoherent(s: World, a: Agent)
    requires Safe(s) && Coherent(s) && OneWorkerPerRow(s) && At(s, a) && s.workers[a].phase.Handling?
    requires Safe(AfterReread(s, a))
    ensures Coherent(AfterReread(s, a))
  {
    hide Safe;
    hide Coherent;
    hide OneWorkerPerRow;
    CoherentParts(s, a);
    NothingDanglesIn(s);
    MoverCoherent(s, AfterReread(s, a), a);
  }

  lemma UndoCoherent(s: World, a: Agent, ok: bool)
    requires Safe(s) && Coherent(s) && OneWorkerPerRow(s) && At(s, a) && s.workers[a].phase.Undoing?
    requires Safe(AfterUndo(s, a, ok))
    ensures Coherent(AfterUndo(s, a, ok))
  {
    hide Safe;
    hide Coherent;
    hide OneWorkerPerRow;
    CoherentParts(s, a);
    NothingDanglesIn(AfterUndo(s, a, ok));
    MoverCoherent(s, AfterUndo(s, a, ok), a);
  }

  lemma RecordCoherent(s: World, a: Agent)
    requires Safe(s) && Coherent(s) && OneWorkerPerRow(s) && At(s, a) && s.workers[a].phase.Recording?
    requires Safe(AfterRecord(s, a))
    ensures Coherent(AfterRecord(s, a))
  {
    hide Safe;
    hide Coherent;
    hide OneWorkerPerRow;
    CoherentParts(s, a);
    NothingDanglesIn(s);
    MoverCoherent(s, AfterRecord(s, a), a);
  }

  lemma DeathCoherent(s: World, a: Agent)
    requires Safe(s) && Coherent(s) && OneWorkerPerRow(s) && At(s, a)
    requires Safe(AfterDeath(s, a))
    ensures Coherent(AfterDeath(s, a))
  {
    hide Safe;
    hide Coherent;
    hide OneWorkerPerRow;
    CoherentParts(s, a);
    NothingDanglesIn(s);
    MoverCoherent(s, AfterDeath(s, a), a);
  }

  lemma UploadCoherent(s: World, a: Agent, key: Key, bytes: nat, t: World)
    requires Safe(s) && Safe(t) && Coherent(s) && OneWorkerPerRow(s) && At(s, a) && s.workers[a].phase.Generating? && key !in s.owner
    requires t == AfterUpload(s, a, key, bytes) || t == AfterLostUpload(s, a, key, bytes)
    ensures Coherent(t)
  {
    hide Safe;
    hide Coherent;
    hide OneWorkerPerRow;
    CoherentParts(s, a);
    BucketKnown(s);
    NothingDanglesIn(s);
    MoverCoherent(s, t, a);
  }

  lemma BucketKnown(s: World)
    requires Safe(s)
    ensures forall k :: k in s.bucket ==> k in s.owner
  {
  }

  lemma CommitCoherent(s: World, a: Agent, reported: bool)
    requires At(s, a) && s.workers[a].phase.Uploaded?
    requires Safe(s) && Safe(AfterCommit(s, a, reported)) && Coherent(s) && OneWorkerPerRow(s)
    ensures Coherent(AfterCommit(s, a, reported))
  {
    hide Safe;
    hide Coherent;
    hide OneWorkerPerRow;
    CoherentParts(s, a);
    MoverCoherent(s, AfterCommit(s, a, reported), a);
  }

  /** Requests change no file; they may queue a row again, which no worker minds. */
  ghost predicate OnlyRequeues(s: World, t: World) {
    && t.bucket == s.bucket
    && (forall id :: id in t.jobs ==>
          (id in s.jobs && t.jobs[id].key == s.jobs[id].key && t.jobs[id].size == s.jobs[id].size
           && (t.jobs[id].status == s.jobs[id].status || t.jobs[id].status.Queued?))
          || (id !in s.ids && t.jobs[id].key.None? && t.jobs[id].status.Queued?))
    && (forall b :: b in t.workers ==> (b in s.workers && t.workers[b] == s.workers[b]) || t.workers[b].phase.Starting?)
  }

  lemma RequeuesStayCoherent(s: World, t: World)
    requires Safe(s) && Coherent(s) && OnlyRequeues(s, t)
    ensures Coherent(t)
  {
    forall id | id in t.jobs ensures RowCoherent(t, id) {
      if id in s.jobs { assert RowCoherent(s, id); assert RowSafe(s, id); }
    }
    forall b | b in t.workers ensures CopyCoherent(t, t.workers[b]) {
      if b in s.workers && t.workers[b] == s.workers[b] {
        assert CopyCoherent(s, s.workers[b]);
        assert WorkerSafe(s, s.workers[b]);
        if s.workers[b].job in s.jobs { assert RowSafe(s, s.workers[b].job); }
      }
    }
  }

  lemma FoundRowRequeued(s: World, a: Agent, now: int, newId: JobId, thread: Option<Agent>)
    requires a in s.requests && s.requests[a].found.Some? && (thread.Some? ==> thread.value !in s.workers)
    ensures OnlyRequeues(s, AfterRequest(s, a, now, newId, thread))
  {
  }

  lemma NewRowQueued(s: World, a: Agent, now: int, newId: JobId, thread: Option<Agent>)
    requires a in s.requests && s.requests[a].found.None? && newId !in s.ids && (thread.Some? ==> thread.value !in s.workers)
    ensures OnlyRequeues(s, AfterRequest(s, a, now, newId, thread))
  {
  }

  lemma RequestCoherent(s: World, a: Agent, now: int, newId: JobId, thread: Option<Agent>)
    requires Safe(s) && Coherent(s) && a in s.requests && newId !in s.ids && (thread.Some? ==> thread.value !in s.workers)
    ensures Coherent(AfterRequest(s, a, now, newId, thread))
  {
    hide Safe;
    hide Coherent;
    hide AfterRequest;
    hide OnlyRequeues;
    if s.requests[a].found.Some? {
      FoundRowRequeued(s, a, now, newId, thread);
    } else {
      NewRowQueued(s, a, now, newId, thread);
    }
    RequeuesStayCoherent(s, AfterRequest(s, a, now, newId, thread));
  }

  lemma DeletionCoherent(s: World, t: World)
    requires Safe(t) && Coherent(s)
    requires forall id :: id in t.jobs ==> id in s.jobs && t.jobs[id] == s.jobs[id]
    requires forall k :: k in t.bucket ==> k in s.bucket && t.bucket[k] == s.bucket[k]
    requires t.workers == s.workers
    ensures Coherent(t)
  {
    NothingDanglesIn(t);
    WorkersFilesThere(t);
    forall id | id in t.jobs ensures RowCoherent(t, id) { assert RowCoherent(s, id); }
    forall b | b in t.workers ensures CopyCoherent(t, t.workers[b]) { assert CopyCoherent(s, s.workers[b]); }
  }

  lemma WorkersFilesThere(s: World)
    requires Safe(s)
    ensures forall a :: a in s.workers && s.workers[a].phase.Uploaded? ==> s.workers[a].phase.newKey in s.bucket
  {
    forall a | a in s.workers && s.workers[a].phase.Uploaded? ensures s.workers[a].phase.newKey in s.bucket {
      assert WorkerSafe(s, s.workers[a]);
    }
  }

  lemma StepCoherent(s: World, l: Label)
    requires Safe(s) && Coherent(s) && OneWorkerPerRow(s) && Enabled(s, l)
    ensures Coherent(Next(s, l))
  {
    hide *;
    StepSafe(s, l);
    if l.Load? || l.Mark? || l.Refresh? || l.Fail? || l.DeleteOld? || l.Reread? || l.Undo? || l.Record? || l.Die? {
      WorkerStepCoherent(s, l);
    } else {
      OtherStepCoherent(s, l);
    }
  }

  lemma WorkerStepCoherent(s: World, l: Label)
    requires Safe(s) && Coherent(s) && OneWorkerPerRow(s) && Enabled(s, l) && Safe(Next(s, l))
    requires l.Load? || l.Mark? || l.Refresh? || l.Fail? || l.DeleteOld? || l.Reread? || l.Undo? || l.Record? || l.Die?
    ensures Coherent(Next(s, l))
  {
    hide Safe;
    hide Coherent;
    hide OneWorkerPerRow;
    hide AfterMark;
    hide AfterUndo;
    hide AfterRecord;
    hide AfterReread;
    hide AfterDeleteOld;
    hide AfterDeath;
    hide AfterFail;
    hide AfterRefresh;
    hide AfterLoad;
    match l
    case Load(a) => LoadCoherent(s, a);
    case Mark(a, now) => MarkCoherent(s, a, now);
    case Refresh(a) => RefreshCoherent(s, a);
    case Fail(a) => FailCoherent(s, a);
    case DeleteOld(a, ok) => DeleteOldCoherent(s, a, ok);
    case Reread(a) => RereadCoherent(s, a);
    case Undo(a, ok) => UndoCoherent(s, a, ok);
    case Record(a) => RecordCoherent(s, a);
    case Die(a) => DeathCoherent(s, a);
  }

  lemma ReadCoherent(s: World, a: Agent, slot: nat, now: int, row: Option<JobId>)
    requires Safe(s) && Coherent(s) && (row.Some? ==> row.value in s.jobs)
    ensures Coherent(AfterRead(s, a, slot, now, row))
  {
    hide Safe;
    hide Coherent;
    hide Locked;
    RequeuesStayCoherent(s, AfterRead(s, a, slot, now, row));
  }

  lemma DeleteFileCoherent(s: World, a: Agent, ok: bool)
    requires a in s.deletions && Safe(AfterDeleteFile(s, a, ok)) && Coherent(s)
    ensures Coherent(AfterDeleteFile(s, a, ok))
  {
    hide Safe;
    hide Coherent;
    hide Referenced;
    DeletionCoherent(s, AfterDeleteFile(s, a, ok));
  }

  lemma OtherStepCoherent(s: World, l: Label)
    requires Safe(s) && Coherent(s) && OneWorkerPerRow(s) && Enabled(s, l) && Safe(Next(s, l))
    requires !(l.Load? || l.Mark? || l.Refresh? || l.Fail? || l.DeleteOld? || l.Reread? || l.Undo? || l.Record? || l.Die?)
    ensures Coherent(Next(s, l))
  {
    hide Safe;
    hide Coherent;
    hide OneWorkerPerRow;
    hide AfterRead;
    hide AfterCommit;
    hide AfterRequest;
    hide AfterUpload;
    hide AfterLostUpload;
    match l
    case RequestRead(a, slot, now, row) => ReadCoherent(s, a, slot, now, row);
    case RequestRefused(a) => RequeuesStayCoherent(s, s.(requests := s.requests - {a}));
    case RequestCommit(a, now, newId, thread) => RequestCoherent(s, a, now, newId, thread);
    case Generated(a, key, bytes) => UploadCoherent(s, a, key, bytes, AfterUpload(s, a, key, bytes));
    case UploadLost(a, key, bytes) => UploadCoherent(s, a, key, bytes, AfterLostUpload(s, a, key, bytes));
    case Commit(a, reported) => CommitCoherent(s, a, reported);
    case DeleteRead(a, job) => DeletionCoherent(s, AfterDeleteRead(s, a, job));
    case DeleteCommit(a) => DeletionCoherent(s, AfterDelete(s, a));
    case DeleteFile(a, ok) => DeleteFileCoherent(s, a, ok);
    case DeleteDies(a) => DeleteFileCoherent(s, a, false);
  }

  /**
   As long as no row ever has two workers that may still write it: done means there is a file, failed means there is none, and
   the recorded size is that of the stored file - through any failures, kills, requests and deletions.
   */
  lemma {:induction false} OneWorkerKeepsRowsCoherent(worlds: seq<World>, labels: seq<Label>, i: nat)
    requires IsRun(worlds, labels) && i < |worlds|
    requires forall k :: 0 <= k < i ==> OneWorkerPerRow(worlds[k])
    ensures Coherent(worlds[i])
    ensures forall id :: id in worlds[i].jobs ==>
              var row := worlds[i].jobs[id];
              && (row.status.Done? ==> row.key.Some?)
              && (row.status.Failed? ==> row.key.None?)
              && (row.key.Some? ==> row.key.value in worlds[i].bucket && row.size == Some(worlds[i].bucket[row.key.value]))
  {
    NothingEverDangles(worlds, labels, i);
    if i > 0 {
      OneWorkerKeepsRowsCoherent(worlds, labels, i - 1);
      NothingEverDangles(worlds, labels, i - 1);
      StepCoherent(worlds[i - 1], labels[i - 1]);
    }
    forall id | id in worlds[i].jobs ensures RowCoherent(worlds[i], id) {}
  }

  // ----- When nothing is lost ------------------------------------------------------------------------

  /**
   A step without an accident: no storage or commit error that leaves the outcome unknown, nobody killed, the
   failure handler finds its row, and a row is deleted only as the portal saw it.
   */
  ghost predicate Smooth(s: World, l: Label)
    requires Enabled(s, l)
  {
    match l
    case UploadLost(_, _, _) => false
    case Die(_) => false
    case DeleteDies(_) => false
    case Commit(a, reported) => reported
    case DeleteOld(_, ok) => ok
    case Undo(_, ok) => ok
    case DeleteFile(_, ok) => ok
    case Reread(a) => s.workers[a].job in s.jobs
    case DeleteCommit(a) =>
      var d := s.deletions[a];
      d.DeletingRow? && d.job in s.jobs && s.jobs[d.job].key == d.key
    case _ => true
  }

  /** Then only a worker that overwrites a file it has not seen can lose one - and a single worker cannot. */
  lemma SmoothLosesNothing(s: World, l: Label)
    requires Coherent(s) && Enabled(s, l) && Smooth(s, l)
    ensures Next(s, l).lost == s.lost
  {
    hide Coherent;
    hide AfterRequest;
    if l.Commit? && s.workers[l.a].job in s.jobs { SingleWorkerOverwritesWhatItSaw(s, l.a); }
    if l.RequestCommit? { RequestLosesNothing(s, l.a, l.now, l.newId, l.thread); }
  }

  lemma RequestLosesNothing(s: World, a: Agent, now: int, newId: JobId, thread: Option<Agent>)
    requires a in s.requests
    ensures AfterRequest(s, a, now, newId, thread).lost == s.lost
  {
  }

  lemma SingleWorkerOverwritesWhatItSaw(s: World, a: Agent)
    requires Coherent(s) && At(s, a) && s.workers[a].phase.Uploaded? && s.workers[a].job in s.jobs
    ensures s.jobs[s.workers[a].job].key == s.workers[a].phase.copy.key
  {
    assert CopyCoherent(s, s.workers[a]);
  }

  /** No accidents and no second worker: at rest, the bucket holds the files of the rows and nothing else. */
  lemma {:induction false} SmoothRunsLeaveNoOrphans(worlds: seq<World>, labels: seq<Label>, i: nat)
    requires IsRun(worlds, labels) && i < |worlds|
    requires forall k :: 0 <= k < i ==> OneWorkerPerRow(worlds[k]) && Enabled(worlds[k], labels[k]) && Smooth(worlds[k], labels[k])
    ensures worlds[i].lost == {}
    ensures worlds[i].workers == map[] && worlds[i].deletions == map[] ==>
              forall k :: k in worlds[i].bucket <==> Referenced(worlds[i], k)
  {
    if i > 0 {
      SmoothRunsLeaveNoOrphans(worlds, labels, i - 1);
      OneWorkerKeepsRowsCoherent(worlds, labels, i - 1);
      SmoothLosesNothing(worlds[i - 1], labels[i - 1]);
    }
    EveryFileIsAccountedFor(worlds, labels, i);
    NothingEverDangles(worlds, labels, i);
    forall k | Referenced(worlds[i], k) ensures k in worlds[i].bucket {}
  }

  // ----- What a second worker can break --------------------------------------------------------------

  /**
   The success commit writes the size only if it differs from the size the worker loaded. So it leaves the
   right size exactly when the new size differs from that one, or the row still has it.
   */
  lemma CommitRecordsTheSizeIff(s: World, a: Agent, reported: bool)
    requires At(s, a) && s.workers[a].phase.Uploaded? && s.workers[a].job in s.jobs
    ensures var p, id := s.workers[a].phase, s.workers[a].job;
            AfterCommit(s, a, reported).jobs[id].size == Some(p.bytes) <==> (p.copy.size != Some(p.bytes) || s.jobs[id].size == Some(p.bytes))
  {
  }

  /**
   The failure handler judges by the copy it loaded. It marks a row that has a file as failed exactly when that
   copy had none (and did not say failed already), or when the row was so marked and the handler writes nothing.
   */
  lemma FailureHidesAFileIff(s: World, a: Agent)
    requires At(s, a) && s.workers[a].phase.Recording? && s.workers[a].job in s.jobs
    ensures var copy, id := s.workers[a].phase.copy, s.workers[a].job;
            var row, row' := s.jobs[id], AfterRecord(s, a).jobs[id];
            (row'.status.Failed? && row'.key.Some?) <==>
              row.key.Some? && ((copy.key.None? && !copy.status.Failed?) || (row.status.Failed? && copy.status == FailedStatus(copy)))
  {
  }

  // ----- What the file space is billed at ------------------------------------------------------------

  const MEGABYTE: int := 1048576

  function CeilingMegabytes(bytes: nat): (mb: nat)
    ensures (mb - 1) * 1024 * 1024 < bytes <= mb * 1024 * 1024
  {
    (bytes + MEGABYTE - 1) / MEGABYTE
  }

  /** The sizes recorded in the rows of a tenant that have a file. */
  function RecordedBytes(s: World, rows: seq<JobId>): nat {
    if rows == [] then 0
    else
      var id := rows[|rows| - 1];
      RecordedBytes(s, rows[..|rows| - 1]) + if id in s.jobs && s.jobs[id].key.Some? && s.jobs[id].size.Some? then s.jobs[id].size.value else 0
  }

  /** What those files really take up in the bucket. */
  function StoredBytes(s: World, rows: seq<JobId>): nat {
    if rows == [] then 0
    else
      var id := rows[|rows| - 1];
      StoredBytes(s, rows[..|rows| - 1])
      + if id in s.jobs && s.jobs[id].key.Some? && s.jobs[id].key.value in s.bucket then s.bucket[s.jobs[id].key.value] else 0
  }

  /** In a coherent world the tenant is billed the stored bytes, rounded up to megabytes. */
  lemma {:induction false} StoredBytesAreBilled(s: World, rows: seq<JobId>)
    requires Coherent(s)
    ensures RecordedBytes(s, rows) == StoredBytes(s, rows)
    ensures CeilingMegabytes(RecordedBytes(s, rows)) == CeilingMegabytes(StoredBytes(s, rows))
  {
    if rows != [] {
      StoredBytesAreBilled(s, rows[..|rows| - 1]);
      if rows[|rows| - 1] in s.jobs { assert RowCoherent(s, rows[|rows| - 1]); }
    }
  }
}
