/** What holds in every interleaving: a row's key always names a file that is there. */
module ExportSafety {
  import opened Basics
  import opened ExportProtocol

  /** No worker has uploaded this file and not recorded it yet. */
  ghost predicate Settled(s: World, k: Key) {
    k in s.owner && forall a :: a in s.workers && s.workers[a].phase.Uploaded? ==> s.workers[a].phase.newKey != k
  }

  /** Safe to delete, for ever: no row refers to the file, and nobody is left who could make one do so. */
  ghost predicate Freed(s: World, k: Key) { Settled(s, k) && !Referenced(s, k) }

  ghost predicate Mine(s: World, id: JobId, key: Option<Key>) {
    key.Some? ==> Settled(s, key.value) && s.owner[key.value] == id
  }

  ghost predicate RowSafe(s: World, id: JobId)
    requires id in s.jobs
  {
    && id in s.ids
    && Mine(s, id, s.jobs[id].key)
    && (s.jobs[id].key.Some? ==> s.jobs[id].key.value in s.bucket)
    && (s.jobs[id].status.Done? ==> s.jobs[id].key.Some?)
  }

  /** A file recorded in a row stays recorded, or gives way to another one, as long as the row lives. */
  ghost predicate StillHasFile(s: World, id: JobId, copy: Job) {
    copy.key.Some? && id in s.jobs ==> s.jobs[id].key.Some?
  }

  ghost predicate WorkerSafe(s: World, w: Worker) {
    && w.job in s.ids
    && match w.phase
       case Generating(copy) => Mine(s, w.job, copy.key)
       case Uploaded(copy, k, bytes) =>
         Mine(s, w.job, copy.key) && k in s.owner && s.owner[k] == w.job && k in s.bucket && !Referenced(s, k)
       case Cleaning(previous) => previous.Some? ==> Freed(s, previous.value)
       case Handling(made) => Mine(s, w.job, made)
       case Undoing(made, copy) =>
         Mine(s, w.job, made) && StillHasFile(s, w.job, copy)
         && (made.Some? && made != copy.key ==> Freed(s, made.value))
       case Recording(copy) => StillHasFile(s, w.job, copy)
       case _ => true
  }

  ghost predicate DeletionSafe(s: World, d: Deletion) {
    match d
    case DeletingRow(id, key) => id in s.ids && Mine(s, id, key)
    case DeletingFile(k) => Settled(s, k) && s.owner[k] !in s.jobs && s.owner[k] in s.ids
  }

  ghost predicate RowsSafe(s: World) { forall id :: id in s.jobs ==> RowSafe(s, id) }

  ghost predicate WorkersSafe(s: World) { forall a :: a in s.workers ==> WorkerSafe(s, s.workers[a]) }

  ghost predicate DeletionsSafe(s: World) { forall a :: a in s.deletions ==> DeletionSafe(s, s.deletions[a]) }

  ghost predicate UploadsDiffer(s: World) {
    forall a, b :: a in s.workers && b in s.workers && a != b && s.workers[a].phase.Uploaded? && s.workers[b].phase.Uploaded?
                   ==> s.workers[a].phase.newKey != s.workers[b].phase.newKey
  }

  ghost predicate Books(s: World) {
    && (forall k :: k in s.bucket ==> k in s.owner)
    && (forall k :: k in s.owner ==> s.owner[k] in s.ids)
    && (forall a :: a in s.requests && s.requests[a].found.Some? ==> s.requests[a].found.value.0 in s.ids)
  }

  /** The invariant of every interleaving. */
  ghost predicate Safe(s: World) {
    RowsSafe(s) && WorkersSafe(s) && DeletionsSafe(s) && UploadsDiffer(s) && Books(s)
  }

  /** The promise of the protocol: what a row points to can be downloaded. */
  ghost predicate NothingDangles(s: World) {
    forall id :: id in s.jobs && s.jobs[id].key.Some? ==> s.jobs[id].key.value in s.bucket
  }

  // ----- What a step may do to the others ------------------------------------------------------------

  /** Files are only deleted when freed; a freed file stays freed; ids and keys are not used twice; rows keep having a file. */
  ghost predicate Tame(s: World, t: World) {
    && s.ids <= t.ids
    && (forall k :: k in s.owner ==> k in t.owner && t.owner[k] == s.owner[k])
    && (forall k :: Settled(s, k) ==> Settled(t, k))
    && (forall k :: Freed(s, k) ==> !Referenced(t, k))
    && (forall k :: k in s.bucket && !Freed(s, k) ==> k in t.bucket)
    && (forall id :: id in t.jobs && id !in s.jobs ==> id !in s.ids)
    && (forall id :: id in s.jobs && id in t.jobs && s.jobs[id].key.Some? ==> t.jobs[id].key.Some?)
  }

  lemma WorkerStays(s: World, t: World, a: Agent)
    requires WorkersSafe(s) && Tame(s, t) && a in s.workers
    requires s.workers[a].phase.Uploaded? ==> !Referenced(t, s.workers[a].phase.newKey)
    ensures WorkerSafe(t, s.workers[a])
  {
    var w := s.workers[a];
    assert WorkerSafe(s, w);
    if w.phase.Uploaded? {
      assert !Settled(s, w.phase.newKey);
    }
  }

  lemma WorkersStay(s: World, t: World)
    requires WorkersSafe(s) && Tame(s, t)
    requires forall a :: a in t.workers ==>
               || WorkerSafe(t, t.workers[a])
               || (a in s.workers && t.workers[a] == s.workers[a]
                   && (s.workers[a].phase.Uploaded? ==> !Referenced(t, s.workers[a].phase.newKey)))
    ensures WorkersSafe(t)
  {
    forall a | a in t.workers ensures WorkerSafe(t, t.workers[a]) {
      if !WorkerSafe(t, t.workers[a]) { WorkerStays(s, t, a); }
    }
  }

  lemma DeletionsStay(s: World, t: World)
    requires DeletionsSafe(s) && Tame(s, t)
    requires forall a :: a in t.deletions ==>
               DeletionSafe(t, t.deletions[a]) || (a in s.deletions && t.deletions[a] == s.deletions[a])
    ensures DeletionsSafe(t)
  {
    forall a | a in t.deletions ensures DeletionSafe(t, t.deletions[a]) {
      if a in s.deletions && t.deletions[a] == s.deletions[a] {
        assert DeletionSafe(s, s.deletions[a]);
      }
    }
  }

  lemma RowsStay(s: World, t: World)
    requires RowsSafe(s) && Tame(s, t)
    requires forall id :: id in t.jobs ==>
               || RowSafe(t, id)
               || (id in s.jobs && t.jobs[id].key == s.jobs[id].key && (t.jobs[id].status.Done? ==> t.jobs[id].key.Some?))
    ensures RowsSafe(t)
  {
    forall id | id in t.jobs ensures RowSafe(t, id) {
      if !RowSafe(t, id) {
        assert RowSafe(s, id);
        if s.jobs[id].key.Some? { assert Referenced(s, s.jobs[id].key.value); }
      }
    }
  }

  /** Same rows up to columns other than the key, same owners: references are the same. */
  ghost predicate SameKeys(s: World, t: World) {
    && t.jobs.Keys == s.jobs.Keys && t.owner == s.owner && t.ids == s.ids
    && forall id :: id in s.jobs ==> t.jobs[id].key == s.jobs[id].key
  }

  ghost predicate NoNewUploads(s: World, t: World) {
    forall a :: a in t.workers && t.workers[a].phase.Uploaded? ==> a in s.workers && s.workers[a] == t.workers[a]
  }

  lemma QuietIsTame(s: World, t: World)
    requires SameKeys(s, t) && NoNewUploads(s, t)
    requires forall k :: k in s.bucket && !Freed(s, k) ==> k in t.bucket
    ensures Tame(s, t)
    ensures forall k :: Referenced(t, k) <==> Referenced(s, k)
  {
  }

  /** A step of one agent that touches no key of any row and only deletes freed files. */
  ghost predicate Quiet(s: World, t: World, a: Agent) {
    && SameKeys(s, t) && NoNewUploads(s, t)
    && t.bucket.Keys <= s.bucket.Keys && (forall k :: k in s.bucket && !Freed(s, k) ==> k in t.bucket)
    && (forall b :: b in t.workers && b != a ==> b in s.workers && t.workers[b] == s.workers[b])
    && t.deletions == s.deletions && t.requests == s.requests
    && (forall id :: id in t.jobs ==> t.jobs[id].status == s.jobs[id].status || (t.jobs[id].status.Done? ==> t.jobs[id].key.Some?))
  }

  lemma QuietIsSafe(s: World, t: World, a: Agent)
    requires Safe(s) && Quiet(s, t, a)
    requires a in t.workers ==> Tame(s, t) ==> WorkerSafe(t, t.workers[a])
    ensures Safe(t)
  {
    QuietIsTame(s, t);
    RowsStay(s, t) by { forall id | id in t.jobs ensures t.jobs[id].status.Done? ==> t.jobs[id].key.Some? { assert RowSafe(s, id); } }
    WorkersStay(s, t) by {
      forall b | b in s.workers ensures WorkerSafe(s, s.workers[b]) {}
    }
    DeletionsStay(s, t);
  }

  // ----- Step by step --------------------------------------------------------------------------------

  lemma SafeWorker(s: World, a: Agent)
    requires Safe(s) && a in s.workers
    ensures WorkerSafe(s, s.workers[a])
    ensures s.workers[a].job in s.jobs ==> RowSafe(s, s.workers[a].job)
  {
  }

  lemma SafeParts(s: World)
    requires Safe(s)
    ensures RowsSafe(s) && WorkersSafe(s) && DeletionsSafe(s) && UploadsDiffer(s) && Books(s)
  {
  }

  lemma SafeRow(s: World, id: JobId)
    requires Safe(s) && id in s.jobs
    ensures RowSafe(s, id)
  {
  }

  lemma SafeDeletion(s: World, a: Agent)
    requires Safe(s) && a in s.deletions
    ensures DeletionSafe(s, s.deletions[a])
  {
  }

  /** A worker that has uploaded and is about to move on was the only one to hold its file. */
  lemma SettledAfterMove(s: World, t: World, a: Agent)
    requires UploadsDiffer(s) && a in s.workers && s.workers[a].phase.Uploaded? && s.workers[a].phase.newKey in s.owner
    requires t.owner == s.owner
    requires forall b :: b in t.workers && t.workers[b].phase.Uploaded? ==> b != a && b in s.workers && t.workers[b] == s.workers[b]
    ensures Settled(t, s.workers[a].phase.newKey)
  {
  }

  lemma BooksKept(s: World, t: World)
    requires UploadsDiffer(s) && Books(s) && NoNewUploads(s, t)
    requires t.bucket.Keys <= s.bucket.Keys && t.owner == s.owner && s.ids <= t.ids
    requires forall a :: a in t.requests && t.requests[a].found.Some? ==> t.requests[a].found.value.0 in t.ids
    ensures UploadsDiffer(t) && Books(t)
  {
  }

  lemma BooksAfterUpload(s: World, t: World, a: Agent, key: Key)
    requires UploadsDiffer(s) && Books(s) && key !in s.owner && a in s.workers
    requires forall b :: b in s.workers && s.workers[b].phase.Uploaded? ==> s.workers[b].phase.newKey in s.owner
    requires t.workers.Keys == s.workers.Keys && forall b :: b in s.workers && b != a ==> t.workers[b] == s.workers[b]
    requires t.workers[a].phase.Uploaded? ==> t.workers[a].phase.newKey == key
    requires t.bucket.Keys == s.bucket.Keys + {key} && t.owner == s.owner[key := s.workers[a].job]
    requires t.ids == s.ids && t.requests == s.requests && s.workers[a].job in s.ids
    ensures UploadsDiffer(t) && Books(t)
  {
  }

  lemma SafeRows(s: World)
    requires Safe(s)
    ensures forall id :: id in s.jobs ==> id in s.ids && (s.jobs[id].status.Done? ==> s.jobs[id].key.Some?)
  {
    forall id | id in s.jobs ensures id in s.ids && (s.jobs[id].status.Done? ==> s.jobs[id].key.Some?) {
      assert RowSafe(s, id);
    }
  }

  lemma SafeUploads(s: World)
    requires Safe(s)
    ensures forall b :: b in s.workers && s.workers[b].phase.Uploaded? ==>
              s.workers[b].phase.newKey in s.owner && !Referenced(s, s.workers[b].phase.newKey)
  {
    forall b | b in s.workers && s.workers[b].phase.Uploaded?
      ensures s.workers[b].phase.newKey in s.owner && !Referenced(s, s.workers[b].phase.newKey)
    {
      assert WorkerSafe(s, s.workers[b]);
    }
  }

  lemma LoadSafe(s: World, a: Agent)
    requires Safe(s) && At(s, a)
    ensures Safe(AfterLoad(s, a))
  {
    hide Safe;
    hide RowSafe;
    SafeWorker(s, a);
    QuietIsSafe(s, AfterLoad(s, a), a);
  }

  lemma IdlerSafe(t: World, w: Worker)
    requires w.job in t.ids && (w.phase.Starting? || w.phase.Marking? || w.phase.Marked? || w.phase == Handling(None))
    ensures WorkerSafe(t, w)
  {
  }

  lemma WorkersJob(s: World, a: Agent)
    requires Safe(s) && At(s, a)
    ensures s.workers[a].job in s.ids
  {
    assert WorkerSafe(s, s.workers[a]);
  }

  lemma MarkKeepsKeys(s: World, a: Agent, now: int)
    requires At(s, a) && s.workers[a].phase.Marking?
    ensures SameKeys(s, AfterMark(s, a, now))
  {
  }

  lemma MarkIsQuiet(s: World, a: Agent, now: int)
    requires At(s, a) && s.workers[a].phase.Marking?
    ensures Quiet(s, AfterMark(s, a, now), a)
  {
    hide Freed;
    hide Referenced;
    hide SameKeys;
    MarkKeepsKeys(s, a, now);
  }

  lemma MarkSafe(s: World, a: Agent, now: int)
    requires Safe(s) && At(s, a) && s.workers[a].phase.Marking?
    ensures Safe(AfterMark(s, a, now))
  {
    hide Safe;
    hide WorkerSafe;
    hide Quiet;
    hide Tame;
    WorkersJob(s, a);
    var t := AfterMark(s, a, now);
    IdlerSafe(t, t.workers[a]);
    MarkIsQuiet(s, a, now);
    QuietIsSafe(s, t, a);
  }

  lemma RefreshSafe(s: World, a: Agent)
    requires Safe(s) && At(s, a)
    ensures Safe(AfterRefresh(s, a))
  {
    hide Safe;
    SafeWorker(s, a);
    QuietIsSafe(s, AfterRefresh(s, a), a);
  }

  lemma FailSafe(s: World, a: Agent)
    requires Safe(s) && At(s, a)
    ensures Safe(AfterFail(s, a))
  {
    hide Safe;
    hide RowSafe;
    hide UploadsDiffer;
    SafeWorker(s, a);
    SafeParts(s);
    var t := AfterFail(s, a);
    if s.workers[a].phase.Uploaded? { SettledAfterMove(s, t, a); }
    QuietIsSafe(s, t, a);
  }

  lemma DeleteOldIsQuiet(s: World, a: Agent, ok: bool)
    requires At(s, a) && s.workers[a].phase.Cleaning?
    requires s.workers[a].phase.previous.Some? ==> Freed(s, s.workers[a].phase.previous.value)
    ensures Quiet(s, AfterDeleteOld(s, a, ok), a) && a !in AfterDeleteOld(s, a, ok).workers
  {
    hide Freed;
    hide Referenced;
  }

  lemma DeleteOldSafe(s: World, a: Agent, ok: bool)
    requires Safe(s) && At(s, a) && s.workers[a].phase.Cleaning?
    ensures Safe(AfterDeleteOld(s, a, ok))
  {
    hide Safe;
    hide RowSafe;
    hide Quiet;
    hide AfterDeleteOld;
    SafeWorker(s, a);
    DeleteOldIsQuiet(s, a, ok);
    QuietIsSafe(s, AfterDeleteOld(s, a, ok), a);
  }

  lemma RereaderSafe(s: World, t: World, a: Agent)
    requires At(s, a) && WorkerSafe(s, s.workers[a]) && s.workers[a].phase.Handling? && Tame(s, t) && SameKeys(s, t)
    requires s.workers[a].job in s.jobs
    ensures WorkerSafe(t, Worker(s.workers[a].job, Undoing(s.workers[a].phase.made, s.jobs[s.workers[a].job])))
  {
    var id, made := s.workers[a].job, s.workers[a].phase.made;
    if made.Some? && made != s.jobs[id].key { assert Freed(s, made.value); }
  }

  lemma RereadIsQuiet(s: World, a: Agent)
    requires At(s, a) && s.workers[a].phase.Handling?
    ensures Quiet(s, AfterReread(s, a), a)
  {
    hide Freed;
    hide Referenced;
  }

  lemma QuietKeepsKeys(s: World, t: World, a: Agent)
    requires Quiet(s, t, a)
    ensures SameKeys(s, t) && Tame(s, t)
  {
    QuietIsTame(s, t);
  }

  lemma RereadSafe(s: World, a: Agent)
    requires Safe(s) && At(s, a) && s.workers[a].phase.Handling?
    ensures Safe(AfterReread(s, a))
  {
    hide Safe;
    hide RowSafe;
    hide WorkerSafe;
    hide Tame;
    hide Quiet;
    hide SameKeys;
    SafeWorker(s, a);
    var t := AfterReread(s, a);
    RereadIsQuiet(s, a);
    QuietKeepsKeys(s, t, a);
    if s.workers[a].job in s.jobs { RereaderSafe(s, t, a); }
    QuietIsSafe(s, t, a);
  }

  lemma BurdenFreed(s: World, a: Agent)
    requires At(s, a) && WorkerSafe(s, s.workers[a]) && s.workers[a].phase.Undoing?
    ensures s.workers[a].job in s.ids && StillHasFile(s, s.workers[a].job, s.workers[a].phase.copy)
    ensures Burden(s.workers[a].phase).Some? ==> Freed(s, Burden(s.workers[a].phase).value)
  {
  }

  lemma RecorderSafe(t: World, w: Worker)
    requires w.job in t.ids && w.phase.Recording? && StillHasFile(t, w.job, w.phase.copy)
    ensures WorkerSafe(t, w)
  {
  }

  lemma UndoSafe(s: World, a: Agent, ok: bool)
    requires Safe(s) && At(s, a) && s.workers[a].phase.Undoing?
    ensures Safe(AfterUndo(s, a, ok))
  {
    hide Safe;
    hide RowSafe;
    hide WorkerSafe;
    hide Freed;
    hide Tame;
    hide Referenced;
    hide Burden;
    SafeWorker(s, a);
    BurdenFreed(s, a);
    var t := AfterUndo(s, a, ok);
    RecorderSafe(t, t.workers[a]);
    QuietIsSafe(s, t, a);
  }

  lemma RecordSafe(s: World, a: Agent)
    requires Safe(s) && At(s, a) && s.workers[a].phase.Recording?
    ensures Safe(AfterRecord(s, a))
  {
    hide Safe;
    SafeWorker(s, a);
    QuietIsSafe(s, AfterRecord(s, a), a);
  }

  lemma DieSafe(s: World, a: Agent)
    requires Safe(s) && At(s, a)
    ensures Safe(AfterDeath(s, a))
  {
    hide Safe;
    hide WorkerSafe;
    hide Burden;
    QuietIsSafe(s, AfterDeath(s, a), a);
  }

  /** What Safe is made of, for steps that are not quiet. */
  lemma AssembleSafe(s: World, t: World)
    requires Safe(s) && Tame(s, t) && UploadsDiffer(t) && Books(t)
    requires forall id :: id in t.jobs ==>
               || RowSafe(t, id)
               || (id in s.jobs && t.jobs[id].key == s.jobs[id].key && t.jobs[id].status == s.jobs[id].status)
    requires forall a :: a in t.workers ==>
               || WorkerSafe(t, t.workers[a])
               || (a in s.workers && t.workers[a] == s.workers[a]
                   && (s.workers[a].phase.Uploaded? ==> !Referenced(t, s.workers[a].phase.newKey)))
    requires forall a :: a in t.deletions ==>
               DeletionSafe(t, t.deletions[a]) || (a in s.deletions && t.deletions[a] == s.deletions[a])
    ensures Safe(t)
  {
    SafeRows(s);
    RowsStay(s, t);
    WorkersStay(s, t);
    DeletionsStay(s, t);
  }

  /** A key never used before: nobody refers to it, holds it or has freed it. */
  lemma FreshKeyIsTame(s: World, t: World, a: Agent, key: Key)
    requires At(s, a) && key !in s.owner && t.jobs == s.jobs && t.ids == s.ids
    requires t.owner == s.owner[key := s.workers[a].job] && s.bucket.Keys <= t.bucket.Keys
    requires forall b :: b in t.workers && t.workers[b].phase.Uploaded? ==> (b in s.workers && t.workers[b] == s.workers[b]) || t.workers[b].phase.newKey == key
    requires forall id :: id in s.jobs && s.jobs[id].key.Some? ==> s.jobs[id].key.value in s.owner
    ensures Tame(s, t)
    ensures forall k :: Referenced(t, k) <==> Referenced(s, k)
  {
  }

  lemma RowKeysKnown(s: World)
    requires Safe(s)
    ensures forall id :: id in s.jobs && s.jobs[id].key.Some? ==> s.jobs[id].key.value in s.owner
  {
    forall id | id in s.jobs && s.jobs[id].key.Some? ensures s.jobs[id].key.value in s.owner { assert RowSafe(s, id); }
  }

  lemma UploadSafe(s: World, a: Agent, key: Key, bytes: nat)
    requires Safe(s) && At(s, a) && s.workers[a].phase.Generating? && key !in s.owner
    ensures Safe(AfterUpload(s, a, key, bytes))
  {
    hide Safe;
    hide RowSafe;
    hide UploadsDiffer;
    hide Books;
    var t := AfterUpload(s, a, key, bytes);
    SafeWorker(s, a);
    SafeParts(s);
    SafeUploads(s);
    RowKeysKnown(s);
    BooksAfterUpload(s, t, a, key);
    FreshKeyIsTame(s, t, a, key);
    UploaderSafe(s, t, a, key);
    AssembleSafe(s, t);
  }

  lemma UploaderSafe(s: World, t: World, a: Agent, key: Key)
    requires At(s, a) && s.workers[a].phase.Generating? && WorkerSafe(s, s.workers[a]) && key !in s.owner && Tame(s, t)
    requires key in t.owner && t.owner[key] == s.workers[a].job && key in t.bucket && !Referenced(t, key)
    requires At(t, a) && t.workers[a] == Worker(s.workers[a].job, Uploaded(s.workers[a].phase.copy, key, t.bucket[key]))
    ensures WorkerSafe(t, t.workers[a])
  {
  }

  lemma LostUploadSafe(s: World, a: Agent, key: Key, bytes: nat)
    requires Safe(s) && At(s, a) && s.workers[a].phase.Generating? && key !in s.owner
    ensures Safe(AfterLostUpload(s, a, key, bytes))
  {
    hide Safe;
    hide RowSafe;
    hide UploadsDiffer;
    hide Books;
    var t := AfterLostUpload(s, a, key, bytes);
    SafeWorker(s, a);
    SafeParts(s);
    SafeUploads(s);
    RowKeysKnown(s);
    BooksAfterUpload(s, t, a, key);
    FreshKeyIsTame(s, t, a, key);
    AssembleSafe(s, t);
  }

  ghost predicate Committing(s: World, a: Agent) { At(s, a) && s.workers[a].phase.Uploaded? && s.workers[a].job in s.jobs }

  lemma CommitIsTame(s: World, a: Agent, reported: bool)
    requires Safe(s) && Committing(s, a)
    ensures var t, k := AfterCommit(s, a, reported), s.workers[a].phase.newKey;
            && Tame(s, t) && Settled(t, k) && t.owner == s.owner && t.bucket == s.bucket
            && (forall j :: Referenced(t, j) ==> j == k || (Referenced(s, j) && s.owner[j] != s.workers[a].job))
  {
    hide Safe;
    hide RowSafe;
    hide UploadsDiffer;
    SafeWorker(s, a);
    SafeParts(s);
    var t := AfterCommit(s, a, reported);
    SettledAfterMove(s, t, a);
    assert !Settled(s, s.workers[a].phase.newKey);
  }

  lemma CommitSafe(s: World, a: Agent, reported: bool)
    requires Safe(s) && At(s, a) && s.workers[a].phase.Uploaded?
    ensures Safe(AfterCommit(s, a, reported))
  {
    hide Safe;
    hide UploadsDiffer;
    hide Books;
    hide Tame;
    hide WorkerSafe;
    hide RowSafe;
    hide Settled;
    var t, w := AfterCommit(s, a, reported), s.workers[a];
    if w.job !in s.jobs {
      FailSafe(s, a);
    } else {
      SafeParts(s);
      SafeUploads(s);
      CommitIsTame(s, a, reported);
      CommitterSafe(s, a, reported);
      CommittedRowSafe(s, a, reported);
      RequestIds(s);
      BooksKept(s, t);
      OthersUploadOthers(s, a);
      AssembleSafe(s, t);
    }
  }

  lemma RequestIds(s: World)
    requires Books(s)
    ensures forall a :: a in s.requests && s.requests[a].found.Some? ==> s.requests[a].found.value.0 in s.ids
  {
  }

  lemma OthersUploadOthers(s: World, a: Agent)
    requires UploadsDiffer(s) && a in s.workers && s.workers[a].phase.Uploaded?
    ensures forall b :: b in s.workers && b != a && s.workers[b].phase.Uploaded? ==> s.workers[b].phase.newKey != s.workers[a].phase.newKey
  {
  }

  lemma CommittedRowSafe(s: World, a: Agent, reported: bool)
    requires Safe(s) && Committing(s, a)
    ensures RowSafe(AfterCommit(s, a, reported), s.workers[a].job)
  {
    hide Safe;
    SafeWorker(s, a);
    CommitIsTame(s, a, reported);
  }

  lemma CommitterSafe(s: World, a: Agent, reported: bool)
    requires Safe(s) && Committing(s, a)
    ensures WorkerSafe(AfterCommit(s, a, reported), AfterCommit(s, a, reported).workers[a])
  {
    hide Safe;
    hide RowSafe;
    SafeWorker(s, a);
    CommitIsTame(s, a, reported);
  }

  /** Steps of a request before its commit change nothing but the list of requests. */
  lemma RequestSafe(s: World, t: World)
    requires Safe(s) && t == s.(requests := t.requests)
    requires forall a :: a in t.requests && t.requests[a].found.Some? ==> t.requests[a].found.value.0 in s.ids
    ensures Safe(t)
  {
    hide Safe;
    hide RowSafe;
    hide WorkerSafe;
    hide DeletionSafe;
    hide UploadsDiffer;
    hide Books;
    SafeParts(s);
    SafeUploads(s);
    BooksKept(s, t);
    QuietIsTame(s, t);
    AssembleSafe(s, t);
  }

  /** What the request's commit does: requeue a known row, or add a new one without a file; perhaps start a thread. */
  ghost predicate Requested(s: World, t: World, newId: JobId) {
    && t.owner == s.owner && t.bucket == s.bucket && t.deletions == s.deletions
    && s.ids <= t.ids <= s.ids + {newId}
    && s.jobs.Keys <= t.jobs.Keys <= s.jobs.Keys + {newId}
    && (forall a :: a in t.requests ==> a in s.requests && t.requests[a] == s.requests[a])
    && (forall id :: id in s.jobs ==> t.jobs[id].key == s.jobs[id].key && (t.jobs[id].status == s.jobs[id].status || t.jobs[id].status.Queued?))
    && (newId in t.jobs && newId !in s.jobs ==> newId in t.ids && t.jobs[newId].key.None? && t.jobs[newId].status.Queued?)
    && (forall a :: a in t.workers ==> (a in s.workers && t.workers[a] == s.workers[a]) || (t.workers[a].phase.Starting? && t.workers[a].job in t.ids))
  }

  lemma RowRequeued(s: World, a: Agent, now: int, newId: JobId, thread: Option<Agent>)
    requires a in s.requests && s.requests[a].found.Some? && (thread.Some? ==> thread.value !in s.workers)
    requires s.requests[a].found.value.0 in s.ids && s.requests[a].found.value.0 in s.jobs
    ensures Requested(s, AfterRequest(s, a, now, newId, thread), newId)
  {
  }

  lemma RowVanished(s: World, a: Agent, now: int, newId: JobId, thread: Option<Agent>)
    requires a in s.requests && s.requests[a].found.Some? && s.requests[a].found.value.0 !in s.jobs
    ensures Requested(s, AfterRequest(s, a, now, newId, thread), newId)
  {
  }

  lemma RowAdded(s: World, a: Agent, now: int, newId: JobId, thread: Option<Agent>)
    requires a in s.requests && s.requests[a].found.None? && newId !in s.jobs && (thread.Some? ==> thread.value !in s.workers)
    ensures Requested(s, AfterRequest(s, a, now, newId, thread), newId)
  {
  }

  lemma RequestCommits(s: World, a: Agent, now: int, newId: JobId, thread: Option<Agent>)
    requires a in s.requests && newId !in s.ids && (thread.Some? ==> thread.value !in s.workers)
    requires Books(s) && newId !in s.jobs
    ensures Requested(s, AfterRequest(s, a, now, newId, thread), newId)
  {
    hide AfterRequest;
    hide Requested;
    if s.requests[a].found.Some? {
      if s.requests[a].found.value.0 in s.jobs {
        RowRequeued(s, a, now, newId, thread);
      } else {
        RowVanished(s, a, now, newId, thread);
      }
    } else {
      RowAdded(s, a, now, newId, thread);
    }
  }

  lemma RequestedIsTame(s: World, t: World, newId: JobId)
    requires Requested(s, t, newId) && newId !in s.ids && NoNewUploads(s, t)
    requires forall id :: id in s.jobs ==> id in s.ids
    ensures Tame(s, t)
    ensures forall k :: Referenced(t, k) ==> Referenced(s, k)
  {
  }

  lemma RequestedRowsSafe(s: World, t: World, newId: JobId)
    requires RowsSafe(s) && Requested(s, t, newId) && Tame(s, t)
    ensures RowsSafe(t)
  {
    forall id | id in t.jobs ensures RowSafe(t, id) {
      if id in s.jobs { assert RowSafe(s, id); }
    }
  }

  lemma RequestedSafe(s: World, t: World, newId: JobId)
    requires Safe(s) && Requested(s, t, newId) && newId !in s.ids
    ensures Safe(t)
  {
    hide Safe;
    hide Tame;
    hide UploadsDiffer;
    hide Books;
    hide RowSafe;
    SafeParts(s);
    SafeRows(s);
    SafeUploads(s);
    RequestIds(s);
    RequestedIsTame(s, t, newId);
    RequestedRowsSafe(s, t, newId);
    BooksKept(s, t);
    AssembleSafe(s, t);
  }

  lemma RequestCommitSafe(s: World, a: Agent, now: int, newId: JobId, thread: Option<Agent>)
    requires Safe(s) && a in s.requests && newId !in s.ids && (thread.Some? ==> thread.value !in s.workers)
    ensures Safe(AfterRequest(s, a, now, newId, thread))
  {
    SafeRows(s);
    RequestCommits(s, a, now, newId, thread);
    RequestedSafe(s, AfterRequest(s, a, now, newId, thread), newId);
  }

  lemma DeleteCommitIsTame(s: World, a: Agent)
    requires a in s.deletions && s.deletions[a].DeletingRow?
    ensures Tame(s, AfterDelete(s, a))
    ensures forall k :: Referenced(AfterDelete(s, a), k) ==> Referenced(s, k)
  {
  }

  lemma DeleteCommitSafe(s: World, a: Agent)
    requires Safe(s) && a in s.deletions && s.deletions[a].DeletingRow?
    ensures Safe(AfterDelete(s, a))
  {
    hide Safe;
    hide RowSafe;
    hide WorkerSafe;
    hide UploadsDiffer;
    hide Books;
    var t := AfterDelete(s, a);
    SafeParts(s);
    SafeDeletion(s, a);
    SafeUploads(s);
    RequestIds(s);
    BooksKept(s, t);
    DeleteCommitIsTame(s, a);
    AssembleSafe(s, t);
  }

  lemma DeleteReadSafe(s: World, a: Agent, job: JobId)
    requires Safe(s) && job in s.jobs
    ensures Safe(AfterDeleteRead(s, a, job))
  {
    hide Safe;
    hide WorkerSafe;
    hide UploadsDiffer;
    hide Books;
    var t := AfterDeleteRead(s, a, job);
    SafeParts(s);
    SafeRow(s, job);
    SafeUploads(s);
    RequestIds(s);
    BooksKept(s, t);
    QuietIsTame(s, t);
    AssembleSafe(s, t);
  }

  lemma DeleteFileSafe(s: World, a: Agent, ok: bool)
    requires Safe(s) && a in s.deletions
    ensures Safe(AfterDeleteFile(s, a, ok))
  {
    hide Safe;
    hide RowSafe;
    hide WorkerSafe;
    hide UploadsDiffer;
    hide Books;
    var t := AfterDeleteFile(s, a, ok);
    SafeParts(s);
    SafeDeletion(s, a);
    SafeUploads(s);
    RequestIds(s);
    BooksKept(s, t);
    QuietIsTame(s, t);
    AssembleSafe(s, t);
  }

  lemma StepSafe(s: World, l: Label)
    requires Safe(s) && Enabled(s, l)
    ensures Safe(Next(s, l))
  {
    hide Safe;
    if l.RequestRead? { RequestReadSafe(s, l); }
    match l
    case RequestRead(_, _, _, _) =>
    case RequestRefused(a) => RefusedSafe(s, a);
    case RequestCommit(a, now, newId, thread) => RequestCommitSafe(s, a, now, newId, thread);
    case Load(a) => LoadSafe(s, a);
    case Mark(a, now) => MarkSafe(s, a, now);
    case Refresh(a) => RefreshSafe(s, a);
    case Generated(a, key, bytes) => UploadSafe(s, a, key, bytes);
    case Fail(a) => FailSafe(s, a);
    case UploadLost(a, key, bytes) => LostUploadSafe(s, a, key, bytes);
    case Commit(a, reported) => CommitSafe(s, a, reported);
    case DeleteOld(a, ok) => DeleteOldSafe(s, a, ok);
    case Reread(a) => RereadSafe(s, a);
    case Undo(a, ok) => UndoSafe(s, a, ok);
    case Record(a) => RecordSafe(s, a);
    case Die(a) => DieSafe(s, a);
    case DeleteRead(a, job) => DeleteReadSafe(s, a, job);
    case DeleteCommit(a) => DeleteCommitSafe(s, a);
    case DeleteFile(a, ok) => DeleteFileSafe(s, a, ok);
    case DeleteDies(a) => DeleteFileSafe(s, a, false);
  }

  lemma RequestReadSafe(s: World, l: Label)
    requires Safe(s) && Enabled(s, l) && l.RequestRead?
    ensures Safe(Next(s, l))
  {
    SafeRows(s);
    RequestSafe(s, AfterRead(s, l.a, l.slot, l.now, l.row));
  }

  lemma RefusedSafe(s: World, a: Agent)
    requires Safe(s)
    ensures Safe(s.(requests := s.requests - {a}))
  {
    RequestSafe(s, s.(requests := s.requests - {a}));
  }

  /** A run from the empty world, by any interleaving of enabled steps. */
  ghost predicate IsRun(worlds: seq<World>, labels: seq<Label>) {
    && |worlds| == |labels| + 1 && worlds[0] == EMPTY
    && forall i :: 0 <= i < |labels| ==> Enabled(worlds[i], labels[i]) && worlds[i + 1] == Next(worlds[i], labels[i])
  }

  /**
   In every interleaving of requests (stale ones taken over included), workers, failures at any of their steps
   and deletions: whenever a row has a file key, the file is in the bucket; and a row that says done has one.
   */
  lemma {:induction false} NothingEverDangles(worlds: seq<World>, labels: seq<Label>, i: nat)
    requires IsRun(worlds, labels) && i < |worlds|
    ensures Safe(worlds[i]) && NothingDangles(worlds[i])
    ensures forall id :: id in worlds[i].jobs && worlds[i].jobs[id].status.Done? ==> worlds[i].jobs[id].key.Some?
  {
    if i > 0 {
      NothingEverDangles(worlds, labels, i - 1);
      StepSafe(worlds[i - 1], labels[i - 1]);
    }
    forall id | id in worlds[i].jobs
      ensures worlds[i].jobs[id].key.Some? ==> worlds[i].jobs[id].key.value in worlds[i].bucket
      ensures worlds[i].jobs[id].status.Done? ==> worlds[i].jobs[id].key.Some?
    {
      assert RowSafe(worlds[i], id);
    }
  }
}
