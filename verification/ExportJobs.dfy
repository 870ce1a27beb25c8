/**
 The export functions as one thread runs them, without interference. The protocol modules say what the same
 steps keep when they interleave.
 */
module ExportJobs {
  import opened Basics
  import opened ExportProtocol

  datatype RequestOutcome = Accepted(job: JobId) | AlreadyRunning | UnknownTarget | Unavailable | TooLarge

  /**
   Where a run of the worker meets an error, if it does. An unreported step took effect and was reported as failed;
   after an unreported upload the worker does not know the key.
   */
  datatype Fault =
    | NoFault
    | MarkFails | MarkUnreported
    | GenerationFails
    | UploadFails | UploadUnreported
    | CommitFails | CommitUnreported
    | OldFileStays

  /** What the failure handler meets: nothing unusual, a deletion that fails, or a row the portal has deleted with its file. */
  datatype Cleanup = Cleaned | CleanupFails | RowGone

  predicate Fails(fault: Fault) { !fault.NoFault? && !fault.OldFileStays? }

  /** The row when the guarded part of the worker ends. */
  function RowBefore(was: Job, now: int, bytes: nat, newKey: Key, fault: Fault): Job {
    match fault
    case MarkFails => was
    case NoFault => was.(status := Done, key := Some(newKey), size := Some(bytes), startedAt := Some(now))
    case OldFileStays => was.(status := Done, key := Some(newKey), size := Some(bytes), startedAt := Some(now))
    case CommitUnreported => was.(status := Done, key := Some(newKey), size := Some(bytes), startedAt := Some(now))
    case _ => was.(status := Processing, startedAt := Some(now))
  }

  predicate Uploads(fault: Fault) {
    !fault.MarkFails? && !fault.MarkUnreported? && !fault.GenerationFails? && !fault.UploadFails?
  }

  function BucketBefore(bucket: map<Key, nat>, bytes: nat, newKey: Key, fault: Fault): map<Key, nat> {
    if Uploads(fault) then bucket[newKey := bytes] else bucket
  }

  /** The key the handler knows of. */
  function MadeBy(newKey: Key, fault: Fault): Option<Key> {
    if Uploads(fault) && !fault.UploadUnreported? then Some(newKey) else None
  }

  /** The table after a worker has been through: a new file, a failed attempt that leaves the file there was, or no row. */
  function JobsAfter(jobs: map<JobId, Job>, id: JobId, now: int, bytes: nat, newKey: Key, fault: Fault, cleanup: Cleanup): map<JobId, Job>
    requires id in jobs
  {
    var row := RowBefore(jobs[id], now, bytes, newKey, fault);
    if !Fails(fault) then jobs[id := row]
    else if cleanup.RowGone? then jobs - {id}
    else jobs[id := row.(status := FailedStatus(row))]
  }

  /**
   And the bucket. A replaced file goes unless its deletion failed; after a failure the new file goes if the handler
   knows its key, finds that the row does not name it, and can delete it; a deleted row takes its own file along.
   */
  function BucketAfter(bucket: map<Key, nat>, was: Job, now: int, bytes: nat, newKey: Key, fault: Fault, cleanup: Cleanup): map<Key, nat> {
    var row, before := RowBefore(was, now, bytes, newKey, fault), BucketBefore(bucket, bytes, newKey, fault);
    if fault.NoFault? then before - Files(was.key)
    else if fault.OldFileStays? then before
    else
      match cleanup
      case Cleaned => before - if MadeBy(newKey, fault) == row.key then {} else Files(MadeBy(newKey, fault))
      case CleanupFails => before
      case RowGone => before - Files(row.key)
  }

  /** One row per slot, one row per file, and every file a row names is stored with the size it says. */
  ghost predicate Consistent(jobs: map<JobId, Job>, bucket: map<Key, nat>) {
    && (forall i, j :: i in jobs && j in jobs && i != j ==> jobs[i].slot != jobs[j].slot)
    && (forall i, j :: i in jobs && j in jobs && i != j && jobs[i].key.Some? ==> jobs[i].key != jobs[j].key)
    && (forall i :: i in jobs && jobs[i].key.Some? ==> jobs[i].key.value in bucket && jobs[i].size == Some(bucket[jobs[i].key.value]))
  }

  /** Changing one row's file and whatever no other row names keeps things consistent. */
  lemma RowConsistent(jobs: map<JobId, Job>, bucket: map<Key, nat>, id: JobId, row: Job, bucket': map<Key, nat>, touched: set<Key>)
    requires Consistent(jobs, bucket) && id in jobs && row.slot == jobs[id].slot
    requires forall j :: j in jobs && j != id && jobs[j].key.Some? ==> jobs[j].key.value !in touched && jobs[j].key != row.key
    requires forall k :: k in bucket && k !in touched ==> k in bucket' && bucket'[k] == bucket[k]
    requires row.key.Some? ==> row.key.value in bucket' && row.size == Some(bucket'[row.key.value])
    ensures Consistent(jobs[id := row], bucket') && Consistent(jobs - {id}, bucket')
  {
  }

  /** What any run of the worker leaves is consistent. */
  lemma AfterConsistent(jobs: map<JobId, Job>, bucket: map<Key, nat>, id: JobId, now: int, bytes: nat, newKey: Key, fault: Fault, cleanup: Cleanup)
    requires Consistent(jobs, bucket) && id in jobs && newKey !in bucket
    ensures Consistent(JobsAfter(jobs, id, now, bytes, newKey, fault, cleanup),
                       BucketAfter(bucket, jobs[id], now, bytes, newKey, fault, cleanup))
  {
    hide Consistent;
    KeysDiffer(jobs, bucket, id, newKey);
    var row, bucket' := RowBefore(jobs[id], now, bytes, newKey, fault), BucketAfter(bucket, jobs[id], now, bytes, newKey, fault, cleanup);
    var last := if Fails(fault) then row.(status := FailedStatus(row)) else row;
    if Fails(fault) && cleanup.RowGone? {
      RowConsistent(jobs, bucket, id, row.(key := None), bucket', Files(jobs[id].key) + {newKey});
    } else {
      RowConsistent(jobs, bucket, id, last, bucket', if row.key == jobs[id].key then {newKey} else Files(jobs[id].key) + {newKey});
    }
  }

  lemma KeysDiffer(jobs: map<JobId, Job>, bucket: map<Key, nat>, id: JobId, newKey: Key)
    requires Consistent(jobs, bucket) && id in jobs && newKey !in bucket
    ensures jobs[id].key != Some(newKey)
    ensures jobs[id].key.Some? ==> jobs[id].key.value in bucket && jobs[id].size == Some(bucket[jobs[id].key.value])
    ensures forall j :: j in jobs && j != id && jobs[j].key.Some? ==> jobs[j].key.value != newKey && jobs[j].key != jobs[id].key
  {
  }

  /**
   What a run leaves, error by error. Without one, or when only the old file cannot be deleted, the row names the new file.
   When the commit took effect and was reported as failed, it does so too and both files stay. After any other error the
   row names the file it named before, which is still there, and the new one is left only if nobody knew it or could
   delete it. A row the portal has deleted takes along the file it named.
   */
  lemma RunSays(jobs: map<JobId, Job>, bucket: map<Key, nat>, id: JobId, now: int, bytes: nat, newKey: Key, fault: Fault, cleanup: Cleanup)
    requires Consistent(jobs, bucket) && id in jobs && newKey !in bucket
    ensures var was, jobs' := jobs[id], JobsAfter(jobs, id, now, bytes, newKey, fault, cleanup);
            var bucket' := BucketAfter(bucket, was, now, bytes, newKey, fault, cleanup);
            var renewed := Job(was.slot, Done, Some(newKey), Some(bytes), was.requestedAt, Some(now));
            match fault
            case NoFault => jobs' == jobs[id := renewed] && bucket' == (bucket - Files(was.key))[newKey := bytes]
            case OldFileStays => jobs' == jobs[id := renewed] && bucket' == bucket[newKey := bytes]
            case CommitUnreported =>
              if cleanup.RowGone? then jobs' == jobs - {id} && bucket' == bucket
              else jobs' == jobs[id := renewed] && bucket' == bucket[newKey := bytes]
            case _ =>
              var left := fault.UploadUnreported? || (fault.CommitFails? && cleanup.CleanupFails?);
              if cleanup.RowGone? then
                jobs' == jobs - {id} && bucket' - {newKey} == bucket - Files(was.key)
                && (newKey in bucket' <==> fault.UploadUnreported? || fault.CommitFails?)
              else
                && jobs' == jobs[id := Job(was.slot, if was.key.Some? then Done else Failed, was.key, was.size, was.requestedAt,
                                           if fault.MarkFails? then was.startedAt else Some(now))]
                && bucket' == if left then bucket[newKey := bytes] else bucket
  {
    KeysDiffer(jobs, bucket, id, newKey);
  }

  class Exports {
    var jobs: map<JobId, Job>
    var bucket: map<Key, nat>

    ghost predicate Valid()
      reads this
    {
      Consistent(jobs, bucket)
    }

    /** The slot's row is queued or processing, and has been for ten minutes at most. */
    ghost predicate Busy(slot: nat, now: int)
      reads this
    {
      exists id :: id in jobs && jobs[id].slot == slot && Locked(jobs[id], now)
    }

    constructor ()
      ensures Valid() && jobs == map[] && bucket == map[]
    {
      jobs, bucket := map[], map[];
    }

    /**
     A request passes the lock, the device check and the size gate, in this order, or changes nothing. When it
     passes, the tenant's row is queued and keeps the file it has.
     */
    method RequestAdhocExport(slot: nat, now: int, targetsKnown: bool, estimate: Option<nat>, limit: nat, newId: JobId)
      returns (outcome: RequestOutcome)
      requires Valid() && newId !in jobs
      modifies this
      ensures Valid() && bucket == old(bucket)
      ensures outcome.AlreadyRunning? <==> old(Busy(slot, now))
      ensures outcome.AlreadyRunning? <==>
                exists id :: id in old(jobs) && old(jobs)[id].slot == slot && (old(jobs)[id].status.Queued? || old(jobs)[id].status.Processing?)
                             && now - (if old(jobs)[id].startedAt.Some? then old(jobs)[id].startedAt.value else old(jobs)[id].requestedAt) <= 600
      ensures outcome.UnknownTarget? <==> !old(Busy(slot, now)) && !targetsKnown
      ensures outcome.Unavailable? <==> !old(Busy(slot, now)) && targetsKnown && estimate.None?
      ensures outcome.TooLarge? <==> !old(Busy(slot, now)) && targetsKnown && estimate.Some? && estimate.value > limit
      ensures !outcome.Accepted? ==> jobs == old(jobs)
      ensures outcome.Accepted? ==>
                var id := outcome.job;
                && (id in old(jobs) ==> old(jobs)[id].slot == slot)
                && (id !in old(jobs) ==> id == newId && forall j :: j in old(jobs) ==> old(jobs)[j].slot != slot)
                && jobs == old(jobs)[id := Job(slot, Queued, if id in old(jobs) then old(jobs)[id].key else None,
                                               if id in old(jobs) then old(jobs)[id].size else None, now, None)]
    {
      var existing: Option<JobId> := None;
      if id :| id in jobs && jobs[id].slot == slot {
        existing := Some(id);
      }
      if existing.Some? && (jobs[existing.value].status.Queued? || jobs[existing.value].status.Processing?) {
        if !IsStale(jobs[existing.value], now) { return AlreadyRunning; }
      }
      if !targetsKnown { return UnknownTarget; }
      if estimate.None? { return Unavailable; }
      if estimate.value > limit { return TooLarge; }
      var id := if existing.Some? then existing.value else newId;
      var job := if existing.Some? then jobs[id] else Job(slot, Queued, None, None, now, None);
      jobs := jobs[id := job.(status := Queued, requestedAt := now, startedAt := None)];
      outcome := Accepted(id);
    }

    /** Notes a failed attempt on a row; what the row says about its file is left alone. */
    method RecordFailedAttempt(id: JobId)
      requires id in jobs
      modifies this
      ensures bucket == old(bucket)
      ensures jobs == old(jobs)[id := old(jobs)[id].(status := if old(jobs)[id].key.Some? then Done else Failed)]
    {
      if jobs[id].key.Some? {
        jobs := jobs[id := jobs[id].(status := Done)];
      } else {
        jobs := jobs[id := jobs[id].(status := Failed)];
      }
    }

    /** The failure handler: it reads the row again, removes a new file the row does not name, and notes the failure. */
    method HandleFailure(id: JobId, made: Option<Key>, ok: bool)
      modifies this
      ensures id !in old(jobs) ==> jobs == old(jobs) && bucket == old(bucket)
      ensures id in old(jobs) ==>
                && bucket == old(bucket) - (if !ok || made == old(jobs)[id].key then {} else Files(made))
                && jobs == old(jobs)[id := old(jobs)[id].(status := FailedStatus(old(jobs)[id]))]
    {
      if id !in jobs { return; }
      if made.Some? && made != jobs[id].key && ok {
        bucket := bucket - {made.value};
      }
      RecordFailedAttempt(id);
    }

    /**
     The worker, for an error at any of its steps: either the new file takes the old one's place in the row; or the
     attempt failed, and the row keeps exactly the file it had, unless it is gone itself.
     */
    method RunExportJob(id: JobId, now: int, bytes: nat, newKey: Key, fault: Fault, cleanup: Cleanup)
      requires Valid() && newKey !in bucket
      modifies this
      ensures Valid()
      ensures id !in old(jobs) ==> jobs == old(jobs) && bucket == old(bucket)
      ensures id in old(jobs) ==>
                && jobs == JobsAfter(old(jobs), id, now, bytes, newKey, fault, cleanup)
                && bucket == BucketAfter(old(bucket), old(jobs)[id], now, bytes, newKey, fault, cleanup)
    {
      hide Consistent;
      if id !in jobs { return; }
      KeysDiffer(jobs, bucket, id, newKey);
      AfterConsistent(jobs, bucket, id, now, bytes, newKey, fault, cleanup);
      var was := jobs[id];
      var failed, made := Generate(id, now, bytes, newKey, fault);
      if failed {
        if cleanup.RowGone? { DeleteRow(id, true); }
        HandleFailure(id, made, !cleanup.CleanupFails?);
      } else if was.key.Some? && was.key != made && !fault.OldFileStays? {
        bucket := bucket - {was.key.value};
      }
      assert jobs == JobsAfter(old(jobs), id, now, bytes, newKey, fault, cleanup);
      assert bucket == BucketAfter(old(bucket), was, now, bytes, newKey, fault, cleanup);
    }

    /** The guarded part of the worker, up to the commit that records the file. */
    method Generate(id: JobId, now: int, bytes: nat, newKey: Key, fault: Fault) returns (failed: bool, made: Option<Key>)
      requires id in jobs
      modifies this
      ensures failed == Fails(fault) && made == MadeBy(newKey, fault)
      ensures jobs == old(jobs)[id := RowBefore(old(jobs)[id], now, bytes, newKey, fault)]
      ensures bucket == BucketBefore(old(bucket), bytes, newKey, fault)
    {
      if fault.MarkFails? { return true, None; }
      jobs := jobs[id := jobs[id].(status := Processing, startedAt := Some(now))];
      if fault.MarkUnreported? || fault.GenerationFails? || fault.UploadFails? { return true, None; }
      bucket := bucket[newKey := bytes];
      if fault.UploadUnreported? { return true, None; }
      made := Some(newKey);
      if fault.CommitFails? { return true, made; }
      jobs := jobs[id := jobs[id].(status := Done, key := made, size := Some(bytes))];
      failed := fault.CommitUnreported?;
    }

    /** The portal's deletion: the row first, then its file, if the storage lets it. */
    method DeleteExport(slot: nat, ok: bool) returns (found: bool)
      requires Valid()
      modifies this
      ensures Valid()
      ensures found <==> exists id :: id in old(jobs) && old(jobs)[id].slot == slot
      ensures !found ==> jobs == old(jobs) && bucket == old(bucket)
      ensures found ==> exists id :: id in old(jobs) && old(jobs)[id].slot == slot
                                     && jobs == old(jobs) - {id} && bucket == old(bucket) - if ok then Files(old(jobs)[id].key) else {}
    {
      if id :| id in jobs && jobs[id].slot == slot {
        DeleteRow(id, ok);
        found := true;
      } else {
        found := false;
      }
    }

    method DeleteRow(id: JobId, ok: bool)
      requires id in jobs
      modifies this
      ensures jobs == old(jobs) - {id} && bucket == old(bucket) - if ok then Files(old(jobs)[id].key) else {}
    {
      var key := jobs[id].key;
      jobs := jobs - {id};
      if key.Some? && ok { bucket := bucket - {key.value}; }
    }
  }
}
