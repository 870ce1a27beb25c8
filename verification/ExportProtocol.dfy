/**
 The export-file protocol: job rows in the database, files in the bucket, and everybody who touches them,
 as a machine over atomic steps that interleave freely.

 A step is one database query, one commit or one storage call, with its possible failures. Workers act on
 the copy of the row they loaded last: a commit writes only the columns whose value differs from that copy.
 Keys of new files and ids of new rows have never been used before.
 */
module ExportProtocol {
  import opened Basics

  type JobId = nat
  type Key = nat
  type Agent = nat

  datatype Status = Queued | Processing | Done | Failed

  /** A row. Slot stands for tenant and kind, which are unique together. */
  datatype Job = Job(slot: nat, status: Status, key: Option<Key>, size: Option<nat>, requestedAt: int, startedAt: Option<int>)

  /** Where a worker stands in the generation of a file; the key it has uploaded but not recorded is in Uploaded. */
  datatype Phase =
    | Starting
    | Marking(seen: Status)
    | Marked
    | Generating(copy: Job)
    | Uploaded(copy: Job, newKey: Key, bytes: nat)
    | Cleaning(previous: Option<Key>)
    | Handling(made: Option<Key>)
    | Undoing(made: Option<Key>, copy: Job)
    | Recording(copy: Job)

  datatype Worker = Worker(job: JobId, phase: Phase)

  /** A request between its checks and its commit: the row it found, if any, as it was then. */
  datatype Request = Request(slot: nat, found: Option<(JobId, Job)>)

  /** A deletion from the portal: before its commit, and between its commit and the storage call. */
  datatype Deletion = DeletingRow(job: JobId, key: Option<Key>) | DeletingFile(file: Key)

  /**
   The world, with two histories: who a key was made for, and which files have been left behind for good.
   */
  datatype World = World(
    jobs: map<JobId, Job>,
    bucket: map<Key, nat>,
    workers: map<Agent, Worker>,
    requests: map<Agent, Request>,
    deletions: map<Agent, Deletion>,
    owner: map<Key, JobId>,
    ids: set<JobId>,
    lost: set<Key>)

  const EMPTY: World := World(map[], map[], map[], map[], map[], map[], {}, {})

  const LOCK_TIMEOUT: int := 600

  /** A row that has been queued or processing for more than ten minutes is taken for a crashed one. */
  predicate IsStale(job: Job, now: int) {
    var reference := if job.startedAt.Some? then job.startedAt.value else job.requestedAt;
    now - reference > LOCK_TIMEOUT
  }

  predicate Locked(job: Job, now: int) {
    (job.status.Queued? || job.status.Processing?) && !IsStale(job, now)
  }

  /** An attempt failed: a row that still has a file stays done, one without becomes failed. Key and size are not written. */
  function FailedStatus(copy: Job): Status { StatusAfterFailure(copy.key.Some?) }

  function StatusAfterFailure(hasFile: bool): Status { if hasFile then Done else Failed }

  /** A column is written only when the new value differs from the loaded copy's. */
  function Written<T(==)>(current: T, copy: T, value: T): T { if value == copy then current else value }

  datatype Label =
    | RequestRead(a: Agent, slot: nat, now: int, row: Option<JobId>)
    | RequestRefused(a: Agent)
    | RequestCommit(a: Agent, now: int, newId: JobId, thread: Option<Agent>)
    | Load(a: Agent)
    | Mark(a: Agent, now: int)
    | Refresh(a: Agent)
    | Generated(a: Agent, key: Key, bytes: nat)
    | Fail(a: Agent)
    | UploadLost(a: Agent, key: Key, bytes: nat)
    | Commit(a: Agent, reported: bool)
    | DeleteOld(a: Agent, ok: bool)
    | Reread(a: Agent)
    | Undo(a: Agent, ok: bool)
    | Record(a: Agent)
    | Die(a: Agent)
    | DeleteRead(a: Agent, job: JobId)
    | DeleteCommit(a: Agent)
    | DeleteFile(a: Agent, ok: bool)
    | DeleteDies(a: Agent)

  predicate At(s: World, a: Agent) { a in s.workers }

  /** Queries by slot find the slot's row, when there is one. */
  ghost predicate Finds(s: World, slot: nat, row: Option<JobId>) {
    match row
    case Some(id) => id in s.jobs && s.jobs[id].slot == slot
    case None => forall id :: id in s.jobs ==> s.jobs[id].slot != slot
  }

  ghost predicate Enabled(s: World, l: Label) {
    match l
    case RequestRead(a, slot, now, row) => a !in s.requests && Finds(s, slot, row)
    case RequestRefused(a) => a in s.requests
    case RequestCommit(a, now, newId, thread) =>
      a in s.requests && newId !in s.ids && (thread.Some? ==> thread.value !in s.workers)
    case Load(a) => At(s, a) && s.workers[a].phase.Starting?
    case Mark(a, now) => At(s, a) && s.workers[a].phase.Marking?
    case Refresh(a) => At(s, a) && s.workers[a].phase.Marked?
    case Generated(a, key, bytes) => At(s, a) && s.workers[a].phase.Generating? && key !in s.owner
    case Fail(a) => At(s, a) && (s.workers[a].phase.Marking? || s.workers[a].phase.Marked? || s.workers[a].phase.Generating? || s.workers[a].phase.Uploaded?)
    case UploadLost(a, key, bytes) => At(s, a) && s.workers[a].phase.Generating? && key !in s.owner
    case Commit(a, reported) => At(s, a) && s.workers[a].phase.Uploaded?
    case DeleteOld(a, ok) => At(s, a) && s.workers[a].phase.Cleaning?
    case Reread(a) => At(s, a) && s.workers[a].phase.Handling?
    case Undo(a, ok) => At(s, a) && s.workers[a].phase.Undoing?
    case Record(a) => At(s, a) && s.workers[a].phase.Recording?
    case Die(a) => At(s, a)
    case DeleteRead(a, job) => a !in s.deletions && job in s.jobs
    case DeleteCommit(a) => a in s.deletions && s.deletions[a].DeletingRow?
    case DeleteFile(a, ok) => a in s.deletions && s.deletions[a].DeletingFile?
    case DeleteDies(a) => a in s.deletions
  }

  function Moved(s: World, a: Agent, phase: Phase): World
    requires At(s, a)
  {
    s.(workers := s.workers[a := s.workers[a].(phase := phase)])
  }

  function Gone(s: World, a: Agent): World { s.(workers := s.workers - {a}) }

  predicate Referenced(s: World, k: Key) {
    k in s.owner && s.owner[k] in s.jobs && s.jobs[s.owner[k]].key == Some(k)
  }

  function Without(s: World, key: Option<Key>): World {
    match key
    case None => s
    case Some(k) => s.(bucket := s.bucket - {k})
  }

  /** A file nobody will delete any more is lost, unless a row refers to it. */
  function Losing(s: World, key: Option<Key>): World {
    match key
    case None => s
    case Some(k) => if Referenced(s, k) then s else s.(lost := s.lost + {k})
  }

  function Files(key: Option<Key>): set<Key> { if key.Some? then {key.value} else {} }

  /** The file a worker still has to account for. */
  function Burden(p: Phase): Option<Key> {
    match p
    case Uploaded(_, k, _) => Some(k)
    case Cleaning(previous) => previous
    case Handling(made) => made
    case Undoing(made, copy) => if made == copy.key then None else made
    case _ => None
  }

  /** The row as the success commit leaves it. */
  function Committed(row: Job, copy: Job, key: Key, bytes: nat): Job {
    row.(status := Written(row.status, copy.status, Done), key := Some(key), size := Written(row.size, copy.size, Some(bytes)))
  }

  function OldKey(copy: Job, newKey: Key): Option<Key> {
    if copy.key == Some(newKey) then None else copy.key
  }

  // ----- The steps -----------------------------------------------------------------------------------

  /** The gate of a request: a row at work on a fresh lock turns it away; otherwise it remembers the row it found. */
  function AfterRead(s: World, a: Agent, slot: nat, now: int, row: Option<JobId>): World
    requires row.Some? ==> row.value in s.jobs
  {
    if row.Some? && Locked(s.jobs[row.value], now) then s
    else s.(requests := s.requests[a := Request(slot, if row.Some? then Some((row.value, s.jobs[row.value])) else None)])
  }

  /** The worker's first query; a row that is gone ends it. */
  function AfterLoad(s: World, a: Agent): World
    requires At(s, a)
  {
    var id := s.workers[a].job;
    if id in s.jobs then Moved(s, a, Marking(s.jobs[id].status)) else Gone(s, a)
  }

  function AfterMark(s: World, a: Agent, now: int): World
    requires At(s, a) && s.workers[a].phase.Marking?
  {
    var id := s.workers[a].job;
    if id !in s.jobs then Moved(s, a, Handling(None))
    else
      var row := s.jobs[id];
      var row' := row.(status := Written(row.status, s.workers[a].phase.seen, Processing), startedAt := Some(now));
      Moved(s.(jobs := s.jobs[id := row']), a, Marked)
  }

  /** The first access after a commit loads the row again: this is the copy the rest of the work relies on. */
  function AfterRefresh(s: World, a: Agent): World
    requires At(s, a)
  {
    var id := s.workers[a].job;
    if id in s.jobs then Moved(s, a, Generating(s.jobs[id])) else Moved(s, a, Handling(None))
  }

  function AfterUpload(s: World, a: Agent, key: Key, bytes: nat): World
    requires At(s, a) && s.workers[a].phase.Generating?
  {
    var w := s.workers[a];
    Moved(s.(bucket := s.bucket[key := bytes], owner := s.owner[key := w.job]), a, Uploaded(w.phase.copy, key, bytes))
  }

  /** The storage kept the file but reported an error, so nobody knows its key. */
  function AfterLostUpload(s: World, a: Agent, key: Key, bytes: nat): World
    requires At(s, a)
  {
    Moved(s.(bucket := s.bucket[key := bytes], owner := s.owner[key := s.workers[a].job], lost := s.lost + {key}), a, Handling(None))
  }

  /** An exception, before or at a commit that did not take effect. */
  function AfterFail(s: World, a: Agent): World
    requires At(s, a)
  {
    var p := s.workers[a].phase;
    Moved(s, a, Handling(if p.Uploaded? then Some(p.newKey) else None))
  }

  function AfterDeleteOld(s: World, a: Agent, ok: bool): World
    requires At(s, a) && s.workers[a].phase.Cleaning?
  {
    var previous := s.workers[a].phase.previous;
    if ok then Gone(Without(s, previous), a) else Gone(Losing(s, previous), a)
  }

  /** The failure handler reads the row again; if it is gone, the handler returns and whatever was uploaded stays behind. */
  function AfterReread(s: World, a: Agent): World
    requires At(s, a) && s.workers[a].phase.Handling?
  {
    var id, made := s.workers[a].job, s.workers[a].phase.made;
    if id in s.jobs then Moved(s, a, Undoing(made, s.jobs[id])) else Gone(Losing(s, made), a)
  }

  /** A new file is deleted only if the row, read again, does not point to it. */
  function AfterUndo(s: World, a: Agent, ok: bool): World
    requires At(s, a) && s.workers[a].phase.Undoing?
  {
    var p := s.workers[a].phase;
    Moved(if ok then Without(s, Burden(p)) else Losing(s, Burden(p)), a, Recording(p.copy))
  }

  function AfterRecord(s: World, a: Agent): World
    requires At(s, a) && s.workers[a].phase.Recording?
  {
    var id, copy := s.workers[a].job, s.workers[a].phase.copy;
    if id !in s.jobs then Gone(s, a)
    else
      var row := s.jobs[id];
      Gone(s.(jobs := s.jobs[id := row.(status := Written(row.status, copy.status, FailedStatus(copy)))]), a)
  }

  function AfterDeath(s: World, a: Agent): World
    requires At(s, a)
  {
    Gone(Losing(s, Burden(s.workers[a].phase)), a)
  }

  function AfterDeleteRead(s: World, a: Agent, job: JobId): World
    requires job in s.jobs
  {
    s.(deletions := s.deletions[a := DeletingRow(job, s.jobs[job].key)])
  }

  /** The storage call of a deletion, or its failure, or the death of the request before it. */
  function AfterDeleteFile(s: World, a: Agent, ok: bool): World
    requires a in s.deletions
  {
    var d := s.deletions[a];
    var t := s.(deletions := s.deletions - {a});
    var file := if d.DeletingFile? then Some(d.file) else None;
    if ok then Without(t, file) else Losing(t, file)
  }

  /** The request's one commit: a row it found is queued again, keeping its file; otherwise a row is added. Then the thread starts. */
  function AfterRequest(s: World, a: Agent, now: int, newId: JobId, thread: Option<Agent>): World
    requires a in s.requests
  {
    var r, rest := s.requests[a], s.requests - {a};
    match r.found
    case Some((id, copy)) =>
      if id !in s.jobs then s.(requests := rest)
      else
        var row := s.jobs[id];
        var row' := row.(status := Written(row.status, copy.status, Queued), requestedAt := now,
                         startedAt := Written(row.startedAt, copy.startedAt, None));
        s.(requests := rest, jobs := s.jobs[id := row'], workers := Threads(s, id, thread))
    case None =>
      if exists id :: id in s.jobs && s.jobs[id].slot == r.slot then s.(requests := rest)
      else
        s.(requests := rest, jobs := s.jobs[newId := Job(r.slot, Queued, None, None, now, None)],
           ids := s.ids + {newId}, workers := Threads(s, newId, thread))
  }

  function Threads(s: World, id: JobId, thread: Option<Agent>): map<Agent, Worker> {
    if thread.None? then s.workers else s.workers[thread.value := Worker(id, Starting)]
  }

  /** The commit that records the new file. It fails when the row is gone; it can also take effect and yet be reported as failed. */
  function AfterCommit(s: World, a: Agent, reported: bool): World
    requires At(s, a) && s.workers[a].phase.Uploaded?
  {
    var w := s.workers[a];
    var copy, newKey := w.phase.copy, w.phase.newKey;
    if w.job !in s.jobs then Moved(s, a, Handling(Some(newKey)))
    else
      var row := s.jobs[w.job];
      var overwritten := if row.key == copy.key then {} else Files(row.key);
      var forgotten := if reported then {} else Files(copy.key);
      s.(jobs := s.jobs[w.job := Committed(row, copy, newKey, w.phase.bytes)],
         workers := s.workers[a := w.(phase := if reported then Cleaning(OldKey(copy, newKey)) else Handling(Some(newKey)))],
         lost := s.lost + overwritten + forgotten)
  }

  /** The portal's commit: the row goes, and then the file the portal saw in it. A file recorded in between is lost. */
  function AfterDelete(s: World, a: Agent): World
    requires a in s.deletions && s.deletions[a].DeletingRow?
  {
    var d := s.deletions[a];
    var row := if d.job in s.jobs then s.jobs[d.job].key else None;
    s.(jobs := s.jobs - {d.job},
       deletions := if d.key.Some? then s.deletions[a := DeletingFile(d.key.value)] else s.deletions - {a},
       lost := s.lost + if row == d.key then {} else Files(row))
  }

  function Next(s: World, l: Label): World
    requires Enabled(s, l)
  {
    match l
    case RequestRead(a, slot, now, row) => AfterRead(s, a, slot, now, row)
    case RequestRefused(a) => s.(requests := s.requests - {a})
    case RequestCommit(a, now, newId, thread) => AfterRequest(s, a, now, newId, thread)
    case Load(a) => AfterLoad(s, a)
    case Mark(a, now) => AfterMark(s, a, now)
    case Refresh(a) => AfterRefresh(s, a)
    case Generated(a, key, bytes) => AfterUpload(s, a, key, bytes)
    case Fail(a) => AfterFail(s, a)
    case UploadLost(a, key, bytes) => AfterLostUpload(s, a, key, bytes)
    case Commit(a, reported) => AfterCommit(s, a, reported)
    case DeleteOld(a, ok) => AfterDeleteOld(s, a, ok)
    case Reread(a) => AfterReread(s, a)
    case Undo(a, ok) => AfterUndo(s, a, ok)
    case Record(a) => AfterRecord(s, a)
    case Die(a) => AfterDeath(s, a)
    case DeleteRead(a, job) => AfterDeleteRead(s, a, job)
    case DeleteCommit(a) => AfterDelete(s, a)
    case DeleteFile(a, ok) => AfterDeleteFile(s, a, ok)
    case DeleteDies(a) => AfterDeleteFile(s, a, false)
  }
}
