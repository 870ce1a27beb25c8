/** The sequential worker of ExportJobs is a run of the protocol that nothing else interrupts. */
module ExportAlone {
  import opened Basics
  import opened ExportProtocol
  import opened ExportJobs

  /** From one world to another by these steps, each of them possible. */
  ghost predicate Leads(s: World, labels: seq<Label>, t: World)
    decreases |labels|
  {
    if labels == [] then s == t else Enabled(s, labels[0]) && Leads(Next(s, labels[0]), labels[1..], t)
  }

  lemma {:induction false} LeadsOn(s: World, first: seq<Label>, t: World, second: seq<Label>, u: World)
    requires Leads(s, first, t) && Leads(t, second, u)
    ensures Leads(s, first + second, u)
    decreases |first|
  {
    hide Enabled;
    hide Next;
    if first == [] {
      assert first + second == second;
    } else {
      LeadsOn(Next(s, first[0]), first[1..], t, second, u);
      assert (first + second)[0] == first[0] && (first + second)[1..] == first[1..] + second;
    }
  }

  lemma LeadsOne(s: World, l: Label)
    requires Enabled(s, l)
    ensures Leads(s, [l], Next(s, l))
  {
    hide Enabled;
    hide Next;
    assert [l][1..] == [];
  }

  lemma OneMore(s: World, labels: seq<Label>, t: World, l: Label)
    requires Leads(s, labels, t) && Enabled(t, l)
    ensures Leads(s, labels + [l], Next(t, l))
  {
    hide Enabled;
    hide Next;
    LeadsOne(t, l);
    LeadsOn(s, labels, t, [l], Next(t, l));
  }

  /** A worker in this phase, alone in the world. */
  predicate Only(s: World, a: Agent, id: JobId, phase: Phase) { s.workers == map[a := Worker(id, phase)] && id in s.jobs }

  // ----- Up to the handler ---------------------------------------------------------------------------

  function Entry(a: Agent, now: int): seq<Label> { [Load(a), Mark(a, now), Refresh(a)] }

  /** The worker's steps up to the end of its guarded part. */
  function Work(a: Agent, now: int, bytes: nat, newKey: Key, fault: Fault): seq<Label> {
    match fault
    case MarkFails => [Load(a)] + [Fail(a)]
    case MarkUnreported => [Load(a)] + [Mark(a, now)] + [Fail(a)]
    case GenerationFails => Entry(a, now) + [Fail(a)]
    case UploadFails => Entry(a, now) + [Fail(a)]
    case UploadUnreported => Entry(a, now) + [UploadLost(a, newKey, bytes)]
    case CommitFails => Entry(a, now) + [Generated(a, newKey, bytes)] + [Fail(a)]
    case CommitUnreported => Entry(a, now) + [Generated(a, newKey, bytes)] + [Commit(a, false)]
    case OldFileStays => Entry(a, now) + [Generated(a, newKey, bytes)] + [Commit(a, true)]
    case NoFault => Entry(a, now) + [Generated(a, newKey, bytes)] + [Commit(a, true)]
  }

  function Marked(was: Job, now: int): Job { was.(status := Processing, startedAt := Some(now)) }

  lemma LoadLeads(s: World, a: Agent, id: JobId) returns (t: World)
    requires Only(s, a, id, Starting)
    ensures Leads(s, [Load(a)], t) && t == s.(workers := map[a := Worker(id, Marking(s.jobs[id].status))])
  {
    LeadsOne(s, Load(a));
    t := Next(s, Load(a));
  }

  lemma MarkLeads(s: World, a: Agent, id: JobId, now: int) returns (t: World)
    requires Only(s, a, id, Starting)
    ensures Leads(s, [Load(a)] + [Mark(a, now)], t)
    ensures t == s.(jobs := s.jobs[id := Marked(s.jobs[id], now)], workers := map[a := Worker(id, Phase.Marked)])
  {
    hide Leads;
    var s1 := LoadLeads(s, a, id);
    OneMore(s, [Load(a)], s1, Mark(a, now));
    t := Next(s1, Mark(a, now));
  }

  lemma EntryLeads(s: World, a: Agent, id: JobId, now: int) returns (t: World)
    requires Only(s, a, id, Starting)
    ensures Leads(s, Entry(a, now), t)
    ensures t == s.(jobs := s.jobs[id := Marked(s.jobs[id], now)], workers := map[a := Worker(id, Generating(Marked(s.jobs[id], now)))])
  {
    hide Leads;
    var s1 := MarkLeads(s, a, id, now);
    OneMore(s, [Load(a)] + [Mark(a, now)], s1, Refresh(a));
    assert [Load(a)] + [Mark(a, now)] + [Refresh(a)] == Entry(a, now);
    t := Next(s1, Refresh(a));
  }

  lemma FailLeads(s: World, labels: seq<Label>, t: World, a: Agent, id: JobId) returns (u: World)
    requires Leads(s, labels, t) && a in t.workers && Only(t, a, id, t.workers[a].phase)
    requires t.workers[a].phase.Marking? || t.workers[a].phase.Marked? || t.workers[a].phase.Generating? || t.workers[a].phase.Uploaded?
    ensures Leads(s, labels + [Fail(a)], u)
    ensures u == t.(workers := map[a := Worker(id, Handling(if t.workers[a].phase.Uploaded? then Some(t.workers[a].phase.newKey) else None))])
  {
    hide Leads;
    OneMore(s, labels, t, Fail(a));
    u := Next(t, Fail(a));
  }

  lemma UploadLeads(s: World, a: Agent, id: JobId, now: int, bytes: nat, newKey: Key) returns (t: World)
    requires Only(s, a, id, Starting) && newKey !in s.owner
    ensures Leads(s, Entry(a, now) + [Generated(a, newKey, bytes)], t) && Only(t, a, id, Uploaded(Marked(s.jobs[id], now), newKey, bytes))
    ensures t.jobs == s.jobs[id := Marked(s.jobs[id], now)] && t.bucket == s.bucket[newKey := bytes] && t.deletions == s.deletions
  {
    hide Leads;
    var s1 := EntryLeads(s, a, id, now);
    OneMore(s, Entry(a, now), s1, Generated(a, newKey, bytes));
    t := Next(s1, Generated(a, newKey, bytes));
  }

  lemma LostUploadLeads(s: World, a: Agent, id: JobId, now: int, bytes: nat, newKey: Key) returns (t: World)
    requires Only(s, a, id, Starting) && newKey !in s.owner
    ensures Leads(s, Entry(a, now) + [UploadLost(a, newKey, bytes)], t) && Only(t, a, id, Handling(None))
    ensures t.jobs == s.jobs[id := Marked(s.jobs[id], now)] && t.bucket == s.bucket[newKey := bytes] && t.deletions == s.deletions
  {
    hide Leads;
    var s1 := EntryLeads(s, a, id, now);
    OneMore(s, Entry(a, now), s1, UploadLost(a, newKey, bytes));
    t := Next(s1, UploadLost(a, newKey, bytes));
  }

  lemma CommitLeads(s: World, a: Agent, id: JobId, now: int, bytes: nat, newKey: Key, reported: bool) returns (t: World)
    requires Only(s, a, id, Starting) && newKey !in s.owner && s.jobs[id].key != Some(newKey)
    ensures Leads(s, Entry(a, now) + [Generated(a, newKey, bytes)] + [Commit(a, reported)], t)
    ensures Only(t, a, id, if reported then Cleaning(s.jobs[id].key) else Handling(Some(newKey)))
    ensures t.jobs == s.jobs[id := Marked(s.jobs[id], now).(status := Done, key := Some(newKey), size := Some(bytes))]
    ensures t.bucket == s.bucket[newKey := bytes] && t.deletions == s.deletions
  {
    hide Leads;
    var s1 := UploadLeads(s, a, id, now, bytes, newKey);
    OneMore(s, Entry(a, now) + [Generated(a, newKey, bytes)], s1, Commit(a, reported));
    t := Next(s1, Commit(a, reported));
  }

  /** Where the guarded part ends: in the handler after a failure, or with the old file to delete. */
  lemma WorkLeads(s: World, a: Agent, id: JobId, now: int, bytes: nat, newKey: Key, fault: Fault) returns (t: World)
    requires Only(s, a, id, Starting) && newKey !in s.owner && s.jobs[id].key != Some(newKey)
    ensures Leads(s, Work(a, now, bytes, newKey, fault), t) && t.deletions == s.deletions
    ensures Only(t, a, id, if Fails(fault) then Handling(MadeBy(newKey, fault)) else Cleaning(s.jobs[id].key))
    ensures t.jobs == s.jobs[id := RowBefore(s.jobs[id], now, bytes, newKey, fault)]
    ensures t.bucket == BucketBefore(s.bucket, bytes, newKey, fault)
  {
    hide Leads;
    hide Next;
    hide Enabled;
    match fault
    case MarkFails =>
      var s1 := LoadLeads(s, a, id);
      t := FailLeads(s, [Load(a)], s1, a, id);
    case MarkUnreported =>
      var s1 := MarkLeads(s, a, id, now);
      t := FailLeads(s, [Load(a)] + [Mark(a, now)], s1, a, id);
    case GenerationFails =>
      var s1 := EntryLeads(s, a, id, now);
      t := FailLeads(s, Entry(a, now), s1, a, id);
    case UploadFails =>
      var s1 := EntryLeads(s, a, id, now);
      t := FailLeads(s, Entry(a, now), s1, a, id);
    case UploadUnreported => t := LostUploadLeads(s, a, id, now, bytes, newKey);
    case CommitFails =>
      var s1 := UploadLeads(s, a, id, now, bytes, newKey);
      t := FailLeads(s, Entry(a, now) + [Generated(a, newKey, bytes)], s1, a, id);
    case CommitUnreported => t := CommitLeads(s, a, id, now, bytes, newKey, false);
    case OldFileStays => t := CommitLeads(s, a, id, now, bytes, newKey, true);
    case NoFault => t := CommitLeads(s, a, id, now, bytes, newKey, true);
  }

  // ----- After it ------------------------------------------------------------------------------------

  /** What comes after the guarded part, given the file the row then names; the portal is agent b. */
  function Rest(a: Agent, b: Agent, id: JobId, named: Option<Key>, fault: Fault, cleanup: Cleanup): seq<Label> {
    if !Fails(fault) then [DeleteOld(a, fault.NoFault?)]
    else if cleanup.RowGone? then
      [DeleteRead(b, id)] + [DeleteCommit(b)] + (if named.Some? then [DeleteFile(b, true)] else []) + [Reread(a)]
    else [Reread(a)] + [Undo(a, cleanup.Cleaned?)] + [Record(a)]
  }

  lemma UndoStep(s: World, a: Agent, id: JobId, made: Option<Key>, copy: Job, ok: bool)
    requires Only(s, a, id, Undoing(made, copy))
    ensures var t := AfterUndo(s, a, ok);
            && Only(t, a, id, Recording(copy)) && t.jobs == s.jobs
            && t.bucket == s.bucket - if !ok || made == copy.key then {} else Files(made)
  {
  }

  lemma RecordStep(s: World, a: Agent, id: JobId)
    requires id in s.jobs && Only(s, a, id, Recording(s.jobs[id]))
    ensures var t := AfterRecord(s, a);
            && t.workers == map[] && t.bucket == s.bucket
            && t.jobs == s.jobs[id := s.jobs[id].(status := FailedStatus(s.jobs[id]))]
  {
  }

  lemma HandlerSteps(s: World, a: Agent, id: JobId, made: Option<Key>, ok: bool)
    requires Only(s, a, id, Handling(made))
    ensures var s1 := AfterReread(s, a);
            && Only(s1, a, id, Undoing(made, s.jobs[id]))
            && var s2 := AfterUndo(s1, a, ok);
               && Only(s2, a, id, Recording(s.jobs[id]))
               && var t := AfterRecord(s2, a);
                  && t.workers == map[]
                  && t.jobs == s.jobs[id := s.jobs[id].(status := FailedStatus(s.jobs[id]))]
                  && t.bucket == s.bucket - if !ok || made == s.jobs[id].key then {} else Files(made)
  {
    hide AfterUndo;
    hide AfterRecord;
    UndoStep(AfterReread(s, a), a, id, made, s.jobs[id], ok);
    RecordStep(AfterUndo(AfterReread(s, a), a, ok), a, id);
  }

  lemma HandlerLeads(s: World, a: Agent, id: JobId, made: Option<Key>, ok: bool) returns (t: World)
    requires Only(s, a, id, Handling(made))
    ensures Leads(s, [Reread(a)] + [Undo(a, ok)] + [Record(a)], t) && t.workers == map[]
    ensures t.jobs == s.jobs[id := s.jobs[id].(status := FailedStatus(s.jobs[id]))]
    ensures t.bucket == s.bucket - if !ok || made == s.jobs[id].key then {} else Files(made)
  {
    hide Leads;
    hide AfterReread;
    hide AfterUndo;
    hide AfterRecord;
    HandlerSteps(s, a, id, made, ok);
    LeadsOne(s, Reread(a));
    var s1 := AfterReread(s, a);
    OneMore(s, [Reread(a)], s1, Undo(a, ok));
    var s2 := AfterUndo(s1, a, ok);
    OneMore(s, [Reread(a)] + [Undo(a, ok)], s2, Record(a));
    t := AfterRecord(s2, a);
  }

  /** The portal deletes the row, and the file the row names. */
  lemma RowGoes(s: World, b: Agent, id: JobId) returns (t: World)
    requires id in s.jobs && b !in s.deletions
    ensures Leads(s, [DeleteRead(b, id)] + [DeleteCommit(b)], t)
    ensures t.jobs == s.jobs - {id} && t.bucket == s.bucket && t.workers == s.workers
    ensures t.deletions == if s.jobs[id].key.Some? then s.deletions[b := DeletingFile(s.jobs[id].key.value)] else s.deletions
  {
    hide Leads;
    LeadsOne(s, DeleteRead(b, id));
    var s1 := Next(s, DeleteRead(b, id));
    OneMore(s, [DeleteRead(b, id)], s1, DeleteCommit(b));
    t := Next(s1, DeleteCommit(b));
    assert s1.deletions - {b} == s.deletions;
  }

  lemma DeletionLeads(s: World, b: Agent, id: JobId) returns (t: World)
    requires id in s.jobs && b !in s.deletions
    ensures Leads(s, [DeleteRead(b, id)] + [DeleteCommit(b)] + (if s.jobs[id].key.Some? then [DeleteFile(b, true)] else []), t)
    ensures t.jobs == s.jobs - {id} && t.bucket == s.bucket - Files(s.jobs[id].key) && t.workers == s.workers && t.deletions == s.deletions
  {
    hide Leads;
    t := RowGoes(s, b, id);
    if s.jobs[id].key.Some? {
      OneMore(s, [DeleteRead(b, id)] + [DeleteCommit(b)], t, DeleteFile(b, true));
      t := Next(t, DeleteFile(b, true));
    } else {
      assert [DeleteRead(b, id)] + [DeleteCommit(b)] + [] == [DeleteRead(b, id)] + [DeleteCommit(b)];
    }
  }

  lemma EarlyReturnLeads(s: World, labels: seq<Label>, t: World, a: Agent, id: JobId, made: Option<Key>) returns (u: World)
    requires Leads(s, labels, t) && t.workers == map[a := Worker(id, Handling(made))] && id !in t.jobs
    ensures Leads(s, labels + [Reread(a)], u) && u.workers == map[] && u.jobs == t.jobs && u.bucket == t.bucket
  {
    hide Leads;
    OneMore(s, labels, t, Reread(a));
    u := Next(t, Reread(a));
  }

  lemma CleaningStep(t: World, a: Agent, id: JobId, previous: Option<Key>, ok: bool)
    requires Only(t, a, id, Cleaning(previous))
    ensures AfterDeleteOld(t, a, ok).workers == map[] && AfterDeleteOld(t, a, ok).jobs == t.jobs
    ensures AfterDeleteOld(t, a, ok).bucket == if ok then t.bucket - Files(previous) else t.bucket
  {
  }

  lemma CleaningLeads(t: World, a: Agent, id: JobId, previous: Option<Key>, ok: bool) returns (u: World)
    requires Only(t, a, id, Cleaning(previous))
    ensures Leads(t, [DeleteOld(a, ok)], u) && u.workers == map[]
    ensures u.jobs == t.jobs && u.bucket == if ok then t.bucket - Files(previous) else t.bucket
  {
    hide Leads;
    hide AfterDeleteOld;
    CleaningStep(t, a, id, previous, ok);
    LeadsOne(t, DeleteOld(a, ok));
    u := AfterDeleteOld(t, a, ok);
  }

  lemma RestLeads(s: World, a: Agent, b: Agent, id: JobId, previous: Option<Key>, made: Option<Key>, fault: Fault, cleanup: Cleanup) returns (t: World)
    requires Only(s, a, id, if Fails(fault) then Handling(made) else Cleaning(previous)) && b !in s.deletions
    ensures Leads(s, Rest(a, b, id, s.jobs[id].key, fault, cleanup), t) && t.workers == map[]
    ensures t.jobs == if !Fails(fault) then s.jobs
                      else if cleanup.RowGone? then s.jobs - {id}
                      else s.jobs[id := s.jobs[id].(status := FailedStatus(s.jobs[id]))]
    ensures t.bucket == if fault.NoFault? then s.bucket - Files(previous)
                        else if fault.OldFileStays? || cleanup.CleanupFails? then s.bucket
                        else if cleanup.RowGone? then s.bucket - Files(s.jobs[id].key)
                        else s.bucket - if made == s.jobs[id].key then {} else Files(made)
  {
    hide Leads;
    hide Next;
    hide Enabled;
    if !Fails(fault) {
      t := CleaningLeads(s, a, id, previous, fault.NoFault?);
    } else if cleanup.RowGone? {
      var s1 := DeletionLeads(s, b, id);
      t := EarlyReturnLeads(s, [DeleteRead(b, id)] + [DeleteCommit(b)] + (if s.jobs[id].key.Some? then [DeleteFile(b, true)] else []), s1, a, id, made);
    } else {
      t := HandlerLeads(s, a, id, made, cleanup.Cleaned?);
    }
  }

  /**
   What ExportJobs.Exports.RunExportJob does to table and bucket, for an error at any step, is what the protocol does
   when nothing else interrupts the worker.
   */
  lemma AloneIsAProtocolRun(
    s: World, a: Agent, b: Agent, id: JobId, now: int, bytes: nat, newKey: Key, fault: Fault, cleanup: Cleanup) returns (t: World)
    requires Only(s, a, id, Starting) && b !in s.deletions
    requires newKey !in s.owner && newKey !in s.bucket && s.jobs[id].key != Some(newKey)
    ensures Leads(s, Work(a, now, bytes, newKey, fault) + Rest(a, b, id, RowBefore(s.jobs[id], now, bytes, newKey, fault).key, fault, cleanup), t)
    ensures t.workers == map[]
    ensures t.jobs == JobsAfter(s.jobs, id, now, bytes, newKey, fault, cleanup)
    ensures t.bucket == BucketAfter(s.bucket, s.jobs[id], now, bytes, newKey, fault, cleanup)
  {
    hide Leads;
    hide RowBefore;
    hide BucketBefore;
    hide Work;
    hide Rest;
    var s1 := WorkLeads(s, a, id, now, bytes, newKey, fault);
    t := RestLeads(s1, a, b, id, s.jobs[id].key, MadeBy(newKey, fault), fault, cleanup);
    LeadsOn(s, Work(a, now, bytes, newKey, fault), s1, Rest(a, b, id, s1.jobs[id].key, fault, cleanup), t);
  }
}
