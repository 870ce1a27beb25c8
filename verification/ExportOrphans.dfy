/** The files left behind for good: no row ever refers to one again, so at rest they are exactly the orphans. */
module ExportOrphans {
  import opened Basics
  import opened ExportProtocol
  import opened ExportSafety
  import opened ExportAccounts

  // ----- A freed file stays freed --------------------------------------------------------------------

  /** The step changes who owns what for no old key, starts no upload and makes no row refer to the file. */
  lemma FreedStays(s: World, t: World, k: Key)
    requires Freed(s, k) && t.owner == s.owner && NoNewUploads(s, t)
    requires forall id :: id in t.jobs && t.jobs[id].key == Some(k) ==> id in s.jobs && s.jobs[id].key == Some(k)
    ensures Freed(t, k)
  {
  }

  lemma UploadFreed(s: World, a: Agent, key: Key, bytes: nat, k: Key)
    requires At(s, a) && s.workers[a].phase.Generating? && key !in s.owner && Freed(s, k)
    ensures Freed(AfterUpload(s, a, key, bytes), k) && Freed(AfterLostUpload(s, a, key, bytes), k)
  {
  }

  lemma CommitFreed(s: World, a: Agent, reported: bool, k: Key)
    requires Safe(s) && At(s, a) && s.workers[a].phase.Uploaded? && Freed(s, k)
    ensures Freed(AfterCommit(s, a, reported), k)
  {
    hide Safe;
    hide Referenced;
    hide Settled;
    if s.workers[a].job in s.jobs {
      CommitIsTame(s, a, reported);
    } else {
      FailFreed(s, a, k);
    }
  }

  lemma FailFreed(s: World, a: Agent, k: Key)
    requires At(s, a) && Freed(s, k)
    ensures Freed(AfterFail(s, a), k)
  {
    FreedStays(s, AfterFail(s, a), k);
  }

  lemma LoadFreed(s: World, a: Agent, k: Key)
    requires At(s, a) && Freed(s, k)
    ensures Freed(AfterLoad(s, a), k)
  {
    hide Freed;
    FreedStays(s, AfterLoad(s, a), k);
  }

  lemma MarkFreed(s: World, a: Agent, now: int, k: Key)
    requires At(s, a) && s.workers[a].phase.Marking? && Freed(s, k)
    ensures Freed(AfterMark(s, a, now), k)
  {
    hide Freed;
    FreedStays(s, AfterMark(s, a, now), k);
  }

  lemma RefreshFreed(s: World, a: Agent, k: Key)
    requires At(s, a) && Freed(s, k)
    ensures Freed(AfterRefresh(s, a), k)
  {
    hide Freed;
    FreedStays(s, AfterRefresh(s, a), k);
  }

  lemma DeleteOldFreed(s: World, a: Agent, ok: bool, k: Key)
    requires At(s, a) && s.workers[a].phase.Cleaning? && Freed(s, k)
    ensures Freed(AfterDeleteOld(s, a, ok), k)
  {
    hide Freed;
    FreedStays(s, AfterDeleteOld(s, a, ok), k);
  }

  lemma RereadFreed(s: World, a: Agent, k: Key)
    requires At(s, a) && s.workers[a].phase.Handling? && Freed(s, k)
    ensures Freed(AfterReread(s, a), k)
  {
    hide Freed;
    FreedStays(s, AfterReread(s, a), k);
  }

  lemma UndoFreed(s: World, a: Agent, ok: bool, k: Key)
    requires At(s, a) && s.workers[a].phase.Undoing? && Freed(s, k)
    ensures Freed(AfterUndo(s, a, ok), k)
  {
    hide Freed;
    FreedStays(s, AfterUndo(s, a, ok), k);
  }

  lemma RecordFreed(s: World, a: Agent, k: Key)
    requires At(s, a) && s.workers[a].phase.Recording? && Freed(s, k)
    ensures Freed(AfterRecord(s, a), k)
  {
    hide Freed;
    FreedStays(s, AfterRecord(s, a), k);
  }

  lemma DeathFreed(s: World, a: Agent, k: Key)
    requires At(s, a) && Freed(s, k)
    ensures Freed(AfterDeath(s, a), k)
  {
    hide Freed;
    FreedStays(s, AfterDeath(s, a), k);
  }

  lemma RequestFreed(s: World, a: Agent, now: int, newId: JobId, thread: Option<Agent>, k: Key)
    requires a in s.requests && (thread.Some? ==> thread.value !in s.workers) && Freed(s, k)
    ensures Freed(AfterRequest(s, a, now, newId, thread), k)
  {
    hide Freed;
    hide AfterRequest;
    if s.requests[a].found.Some? { FoundRowTouches(s, a, now, newId, thread); } else { NewRowTouches(s, a, now, newId, thread); }
    FreedStays(s, AfterRequest(s, a, now, newId, thread), k);
  }

  lemma ReadFreed(s: World, l: Label, k: Key)
    requires Enabled(s, l) && (l.RequestRead? || l.RequestRefused? || l.DeleteRead?) && Freed(s, k)
    ensures Freed(Next(s, l), k)
  {
    hide Freed;
    hide Enabled;
    hide Next;
    ReadsTouchNothing(s, l);
    FreedStays(s, Next(s, l), k);
  }

  lemma DeletionFreed(s: World, l: Label, k: Key)
    requires Enabled(s, l) && (l.DeleteCommit? || l.DeleteFile? || l.DeleteDies?) && Freed(s, k)
    ensures Freed(Next(s, l), k)
  {
    hide Freed;
    FreedStays(s, Next(s, l), k);
  }

  lemma StepFreed(s: World, l: Label, k: Key)
    requires Safe(s) && Enabled(s, l) && Freed(s, k)
    ensures Freed(Next(s, l), k)
  {
    hide Safe;
    hide Freed;
    hide AfterRequest;
    hide AfterCommit;
    hide AfterLoad;
    hide AfterMark;
    hide AfterRefresh;
    hide AfterUpload;
    hide AfterLostUpload;
    hide AfterFail;
    hide AfterDeleteOld;
    hide AfterReread;
    hide AfterUndo;
    hide AfterRecord;
    hide AfterDeath;
    match l
    case RequestCommit(a, now, newId, thread) => RequestFreed(s, a, now, newId, thread, k);
    case Load(a) => LoadFreed(s, a, k);
    case Mark(a, now) => MarkFreed(s, a, now, k);
    case Refresh(a) => RefreshFreed(s, a, k);
    case Generated(a, key, bytes) => UploadFreed(s, a, key, bytes, k);
    case Fail(a) => FailFreed(s, a, k);
    case UploadLost(a, key, bytes) => UploadFreed(s, a, key, bytes, k);
    case Commit(a, reported) => CommitFreed(s, a, reported, k);
    case DeleteOld(a, ok) => DeleteOldFreed(s, a, ok, k);
    case Reread(a) => RereadFreed(s, a, k);
    case Undo(a, ok) => UndoFreed(s, a, ok, k);
    case Record(a) => RecordFreed(s, a, k);
    case Die(a) => DeathFreed(s, a, k);
    case DeleteCommit(_) => DeletionFreed(s, l, k);
    case DeleteFile(_, _) => DeletionFreed(s, l, k);
    case DeleteDies(_) => DeletionFreed(s, l, k);
    case _ => ReadFreed(s, l, k);
  }

  // ----- What is lost is freed -----------------------------------------------------------------------

  /** A file that a step leaves behind; it was nobody's already, or is with this step. */
  lemma CarriedIsFreed(s: World, a: Agent, key: Option<Key>, k: Key)
    requires Safe(s) && At(s, a) && key == Some(k) && !Referenced(s, k)
    requires var p := s.workers[a].phase;
             || (p.Cleaning? && p.previous == key) || (p.Handling? && p.made == key) || (p.Undoing? && p.made == key)
    ensures Freed(s, k)
  {
    assert WorkerSafe(s, s.workers[a]);
  }

  lemma DeathFrees(s: World, a: Agent, k: Key)
    requires Safe(s) && At(s, a) && Burden(s.workers[a].phase) == Some(k) && !Referenced(s, k)
    ensures Freed(AfterDeath(s, a), k)
  {
    hide Safe;
    hide UploadsDiffer;
    SafeWorker(s, a);
    SafeParts(s);
    var t := AfterDeath(s, a);
    if s.workers[a].phase.Uploaded? {
      SettledAfterMove(s, t, a);
    } else {
      CarriedIsFreed(s, a, Some(k), k);
      FreedStays(s, t, k);
    }
  }

  lemma LostUploadFrees(s: World, a: Agent, key: Key, bytes: nat)
    requires Safe(s) && At(s, a) && s.workers[a].phase.Generating? && key !in s.owner
    ensures Freed(AfterLostUpload(s, a, key, bytes), key)
  {
    hide Safe;
    RowKeysKnown(s);
    SafeUploads(s);
  }

  lemma CommitLoses(s: World, a: Agent, reported: bool, k: Key)
    requires Safe(s) && At(s, a) && s.workers[a].phase.Uploaded?
    requires k in AfterCommit(s, a, reported).lost && k !in s.lost
    ensures Freed(AfterCommit(s, a, reported), k)
  {
    hide Safe;
    var id := s.workers[a].job;
    SafeWorker(s, a);
    CommitIsTame(s, a, reported);
    SafeRow(s, id);
    var t := AfterCommit(s, a, reported);
    assert Settled(s, k) && s.owner[k] == id;
    assert k != s.workers[a].phase.newKey;
  }

  lemma DeleteLoses(s: World, a: Agent, k: Key)
    requires Safe(s) && a in s.deletions && s.deletions[a].DeletingRow? && k in AfterDelete(s, a).lost && k !in s.lost
    ensures Freed(AfterDelete(s, a), k)
  {
    hide Safe;
    SafeRow(s, s.deletions[a].job);
  }

  lemma DeleteFileLoses(s: World, a: Agent, ok: bool, k: Key)
    requires Safe(s) && a in s.deletions && k in AfterDeleteFile(s, a, ok).lost && k !in s.lost
    ensures Freed(AfterDeleteFile(s, a, ok), k)
  {
    hide Safe;
    SafeDeletion(s, a);
    FreedStays(s, AfterDeleteFile(s, a, ok), k);
  }

  lemma DeleteOldLoses(s: World, a: Agent, ok: bool, k: Key)
    requires Safe(s) && At(s, a) && s.workers[a].phase.Cleaning? && k in AfterDeleteOld(s, a, ok).lost && k !in s.lost
    ensures Freed(AfterDeleteOld(s, a, ok), k)
  {
    hide Safe;
    hide Freed;
    CarriedIsFreed(s, a, Some(k), k);
    DeleteOldFreed(s, a, ok, k);
  }

  lemma RereadLoses(s: World, a: Agent, k: Key)
    requires Safe(s) && At(s, a) && s.workers[a].phase.Handling? && k in AfterReread(s, a).lost && k !in s.lost
    ensures Freed(AfterReread(s, a), k)
  {
    hide Safe;
    hide Freed;
    CarriedIsFreed(s, a, Some(k), k);
    RereadFreed(s, a, k);
  }

  lemma UndoLoses(s: World, a: Agent, ok: bool, k: Key)
    requires Safe(s) && At(s, a) && s.workers[a].phase.Undoing? && k in AfterUndo(s, a, ok).lost && k !in s.lost
    ensures Freed(AfterUndo(s, a, ok), k)
  {
    hide Safe;
    hide Freed;
    CarriedIsFreed(s, a, Some(k), k);
    UndoFreed(s, a, ok, k);
  }

  lemma DeathLoses(s: World, a: Agent, k: Key)
    requires Safe(s) && At(s, a) && k in AfterDeath(s, a).lost && k !in s.lost
    ensures Freed(AfterDeath(s, a), k)
  {
    hide Safe;
    hide Freed;
    DeathFrees(s, a, k);
  }

  lemma RowWritesLoseNothing(s: World, l: Label)
    requires Enabled(s, l) && (l.Mark? || l.Record?)
    ensures Next(s, l).lost == s.lost
  {
    hide Written;
  }

  lemma OthersLoseNothing(s: World, l: Label)
    requires Enabled(s, l) && (l.RequestRead? || l.RequestRefused? || l.Load? || l.Mark? || l.Refresh? || l.Generated? || l.Fail? || l.Record? || l.DeleteRead?)
    ensures Next(s, l).lost == s.lost
  {
    hide *;
    if l.RequestRead? || l.RequestRefused? || l.DeleteRead? {
      ReadsTouchNothing(s, l);
    } else if l.Load? || l.Refresh? || l.Fail? {
      MovesTouchNothing(s, l);
    } else if l.Generated? {
      UploadsKeepRows(s, l);
    } else {
      RowWritesLoseNothing(s, l);
    }
  }

  lemma StepLoses(s: World, l: Label, k: Key)
    requires Safe(s) && Enabled(s, l) && k in Next(s, l).lost && k !in s.lost
    ensures Freed(Next(s, l), k)
  {
    hide Safe;
    hide Freed;
    hide AfterRequest;
    hide AfterCommit;
    hide AfterDeleteOld;
    hide AfterReread;
    hide AfterUndo;
    hide AfterDeath;
    hide AfterDelete;
    hide AfterDeleteFile;
    match l
    case RequestCommit(a, now, newId, thread) => RequestLosesNothing(s, a, now, newId, thread);
    case UploadLost(a, key, bytes) => LostUploadFrees(s, a, key, bytes);
    case Commit(a, reported) => CommitLoses(s, a, reported, k);
    case DeleteOld(a, ok) => DeleteOldLoses(s, a, ok, k);
    case Reread(a) => RereadLoses(s, a, k);
    case Undo(a, ok) => UndoLoses(s, a, ok, k);
    case Die(a) => DeathLoses(s, a, k);
    case DeleteCommit(a) => DeleteLoses(s, a, k);
    case DeleteFile(a, ok) => DeleteFileLoses(s, a, ok, k);
    case DeleteDies(a) => DeleteFileLoses(s, a, false, k);
    case _ => OthersLoseNothing(s, l);
  }

  // ----- The orphans ---------------------------------------------------------------------------------

  ghost predicate LostAreFreed(s: World) { forall k :: k in s.lost ==> Freed(s, k) }

  lemma {:induction false} EveryRunLosesOnlyFreed(worlds: seq<World>, labels: seq<Label>, i: nat)
    requires IsRun(worlds, labels) && i < |worlds|
    ensures LostAreFreed(worlds[i])
  {
    hide Safe;
    hide Freed;
    hide Enabled;
    hide Next;
    if i > 0 {
      EveryRunLosesOnlyFreed(worlds, labels, i - 1);
      NothingEverDangles(worlds, labels, i - 1);
      var s, l := worlds[i - 1], labels[i - 1];
      forall k | k in Next(s, l).lost ensures Freed(Next(s, l), k) {
        if k in s.lost { StepFreed(s, l, k); } else { StepLoses(s, l, k); }
      }
    }
  }

  /**
   In every interleaving, once all workers and deletions are through, the objects that no row refers to are exactly the
   lost files that are in the bucket.
   */
  lemma OrphansAreTheLostFiles(worlds: seq<World>, labels: seq<Label>, i: nat)
    requires IsRun(worlds, labels) && i < |worlds| && worlds[i].workers == map[] && worlds[i].deletions == map[]
    ensures forall k :: k in worlds[i].bucket ==> (!Referenced(worlds[i], k) <==> k in worlds[i].lost)
  {
    EveryRunLosesOnlyFreed(worlds, labels, i);
    EveryFileIsAccountedFor(worlds, labels, i);
    forall k | k in worlds[i].lost ensures !Referenced(worlds[i], k) {
      assert Freed(worlds[i], k);
    }
  }
}
