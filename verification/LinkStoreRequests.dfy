/** Every change to a row that clicks do not make goes back to a request for it: what the request names is done and
    nothing else, and only for the link's owner or an administrator. */
module LinkStoreRequests {
  import opened Wrappers
  import opened Links
  import opened LinkStore
  import opened LinkStoreInvariant
  import opened LinkStoreSteps
  import opened LinkStoreTheorems
  import opened LinkStoreLone
  import opened LinkStoreBudgets
  import opened LinkEffects
  import opened LinkStoreAtomic

  // ---------- every call has begun ----------

  /** The thread ran the first statement of this job at the n-th event, and has held the lock from then on. */
  ghost predicate Began(c: Config, start: int, es: seq<Event>, n: nat, t: Tid, job: Job, o: Oracle)
    requires Possible(c, start, es)
  {
    && n < |es| && es[n] == Go(t, o) && Holds(c, start, es, n, t) && Possible(c, start, es[..n])
    && t in After(c, start, es[..n]).threads && After(c, start, es[..n]).threads[t] == Locked(job)
  }

  /** The thread is at work for this job, whose first statement ran in this state. */
  ghost predicate Serves(c: Config, start: int, es: seq<Event>, t: Tid, job: Job, o: Oracle, s0: State)
    requires Possible(c, start, es)
  {
    exists n: nat :: Began(c, start, es, n, t, job, o) && After(c, start, es[..n]) == s0
  }

  /** Nobody gets the write lock but by taking it. */
  predicate LockPasses(s: State, e: Event, s': State) {
    || s'.writer == s.writer
    || s'.writer == None
    || (e.Go? && s'.writer == Some(e.t) && e.t in s'.threads && s'.threads[e.t].Locked?)
  }

  lemma FreeStepPassesLock(s: State, t: Tid, o: Oracle)
    requires t in s.threads && !IsReader(s.threads[t]) && !IsWriter(s.threads[t])
    ensures LockPasses(s, Go(t, o), FreeStep(s, t, o))
  {
  }

  lemma WriterPassesLock(c: Config, s: State, t: Tid, o: Oracle)
    requires t in s.threads && IsWriter(s.threads[t])
    ensures LockPasses(s, Go(t, o), WriterStep(c, s, t, o))
  {
    if Settling(s.threads[t]) {
      SettlingThreads(c, s, t, o);
    } else {
      SilentWriter(c, s, t, o);
    }
  }

  lemma StepPassesLock(c: Config, s: State, e: Event)
    requires LocksOk(s) && Enabled(s, e)
    ensures LockPasses(s, e, Apply(c, s, e))
  {
    if e.Go? {
      if IsReader(s.threads[e.t]) {
        OthersUnderRead(c, s, e.t);
      } else if IsWriter(s.threads[e.t]) {
        WriterPassesLock(c, s, e.t, e.oracle);
      } else {
        FreeStepPassesLock(s, e.t, e.oracle);
      }
    }
  }

  predicate AtWork(s: State, t: Tid) {
    t in s.threads && IsWriter(s.threads[t])
  }

  lemma WorkWentOn(s: State, e: Event, s': State, t: Tid)
    requires LocksOk(s) && LocksOk(s') && LockPasses(s, e, s') && AtWork(s', t) && !s'.threads[t].Locked?
    ensures AtWork(s, t)
  {
  }

  lemma HoldsOn(c: Config, start: int, es: seq<Event>, n: nat, t: Tid)
    requires Possible(c, start, es) && n < |es| && Possible(c, start, es[..|es| - 1])
    requires Holds(c, start, es[..|es| - 1], n, t) && AtWork(After(c, start, es), t)
    ensures Holds(c, start, es, n, t)
  {
    var before := es[..|es| - 1];
    assert es[..|es|] == es;
    forall i | n <= i <= |es|
      ensures Possible(c, start, es[..i]) && t in After(c, start, es[..i]).threads
      ensures IsWriter(After(c, start, es[..i]).threads[t])
    {
      if i < |es| {
        assert before[..i] == es[..i];
      }
    }
  }

  lemma WorkBefore(w: World, c: Config, s: State, e: Event, t: Tid)
    requires Inv(w, c, s) && Enabled(s, e)
    requires LocksOk(Apply(c, s, e)) && AtWork(Apply(c, s, e), t) && !Apply(c, s, e).threads[t].Locked?
    ensures AtWork(s, t) && (s.threads[t].Locked? ==> e.Go? && e.t == t)
  {
    StepPassesLock(c, s, e);
    WorkWentOn(s, e, Apply(c, s, e), t);
    if s.threads[t].Locked? && !(e.Go? && e.t == t) {
      OthersUnderTheLock(w, c, s, t, e);
    }
  }

  lemma HoldsNow(c: Config, start: int, es: seq<Event>, t: Tid)
    requires Possible(c, start, es) && AtWork(After(c, start, es), t)
    ensures Holds(c, start, es, |es|, t)
  {
    assert es[..|es|] == es;
  }

  lemma BeginsNow(c: Config, start: int, es: seq<Event>, m: nat, t: Tid, job: Job, o: Oracle)
    requires |es| == m + 1 && Possible(c, start, es) && AtWork(After(c, start, es), t) && es[m] == Go(t, o)
    requires Possible(c, start, es[..m]) && Holds(c, start, es[..m], m, t)
    requires AtWork(After(c, start, es[..m]), t) && After(c, start, es[..m]).threads[t] == Locked(job)
    ensures Began(c, start, es, m, t, job, o)
  {
    HoldsOn(c, start, es, m, t);
  }

  lemma BegunServes(c: Config, start: int, es: seq<Event>, n: nat, t: Tid, job: Job, o: Oracle)
    requires Possible(c, start, es) && Began(c, start, es, n, t, job, o)
    ensures Serves(c, start, es, t, job, o, After(c, start, es[..n]))
  {
  }

  lemma BeganOn(c: Config, start: int, es: seq<Event>, before: seq<Event>, n: nat, t: Tid, job: Job, o: Oracle)
    requires Possible(c, start, es) && es != [] && AtWork(After(c, start, es), t)
    requires before == es[..|es| - 1] && Possible(c, start, before) && Began(c, start, before, n, t, job, o)
    ensures Began(c, start, es, n, t, job, o) && before[..n] == es[..n]
  {
    assert before[..n] == es[..n];
    HoldsOn(c, start, es, n, t);
  }

  lemma ServesOn(c: Config, start: int, es: seq<Event>, t: Tid, job: Job, o: Oracle, s0: State)
    requires Possible(c, start, es) && es != [] && AtWork(After(c, start, es), t)
    requires Possible(c, start, es[..|es| - 1]) && Serves(c, start, es[..|es| - 1], t, job, o, s0)
    ensures Serves(c, start, es, t, job, o, s0)
  {
    var before := es[..|es| - 1];
    var n: nat :| Began(c, start, before, n, t, job, o) && After(c, start, before[..n]) == s0;
    BeganOn(c, start, es, before, n, t, job, o);
  }

  /** Whoever is past its first statement under the write lock has begun with that of its job. */
  lemma {:induction false} CallBegan(c: Config, start: int, es: seq<Event>, t: Tid)
    returns (job: Job, o: Oracle, s0: State)
    requires Possible(c, start, es) && AtWork(After(c, start, es), t) && !After(c, start, es).threads[t].Locked?
    ensures Serves(c, start, es, t, job, o, s0)
  {
    var before := es[..|es| - 1];
    var w := World(Asked(es), Whole);
    assert Asked(before) <= Asked(es);
    AlwaysInv(w, c, start, before);
    AlwaysInv(w, c, start, es);
    var s := After(c, start, before);
    WorkBefore(w, c, s, es[|es| - 1], t);
    if s.threads[t].Locked? {
      job, o, s0 := s.threads[t].job, es[|es| - 1].oracle, s;
      HoldsNow(c, start, before, t);
      BeginsNow(c, start, es, |es| - 1, t, job, o);
      BegunServes(c, start, es, |es| - 1, t, job, o);
    } else {
      job, o, s0 := CallBegan(c, start, before, t);
      ServesOn(c, start, es, t, job, o, s0);
    }
  }

  lemma ServesUnderway(c: Config, start: int, es: seq<Event>, t: Tid, job: Job, o: Oracle, s0: State)
    requires Possible(c, start, es) && Serves(c, start, es, t, job, o, s0)
    ensures Underway(c.capacity, s0, job, o, After(c, start, es), t)
  {
    var n: nat :| Began(c, start, es, n, t, job, o) && After(c, start, es[..n]) == s0;
    CallsGoOn(c, start, es, n, t, job, o);
  }

  // ---------- edits ----------

  /** Only an update writes what clicks and other services do not. */
  predicate EditedBy(s: State, s': State, pc: Pc, id: string) {
    id in s.links && id in s'.links ==>
      SameButClicks(s.links[id], s'.links[id]) || (pc.Loaded? && pc.link.id == id)
  }

  lemma BeginEditsNothing(s: State, t: Tid, o: Oracle, id: string)
    requires t in s.threads && s.threads[t].Locked?
    ensures EditedBy(s, Begin(s, t, s.threads[t].job, o), s.threads[t], id)
  {
  }

  lemma RereadEditsNothing(c: Config, s: State, t: Tid, o: Oracle, id: string)
    requires t in s.threads && s.threads[t].Reread?
    ensures EditedBy(s, WriterStep(c, s, t, o), s.threads[t], id)
  {
  }

  lemma ChosenEditsNothing(c: Config, s: State, t: Tid, o: Oracle, id: string)
    requires t in s.threads && s.threads[t].Chosen? && s.threads[t].link.id != id
    ensures EditedBy(s, WriterStep(c, s, t, o), s.threads[t], id)
  {
  }

  lemma RowChangeEdits(c: Config, s: State, t: Tid, o: Oracle, id: string)
    requires t in s.threads && (s.threads[t].Loaded? || s.threads[t].Doomed?)
    ensures EditedBy(s, WriterStep(c, s, t, o), s.threads[t], id)
  {
  }

  lemma WriterEdits(w: World, c: Config, s: State, t: Tid, o: Oracle, id: string)
    requires Inv(w, c, s) && t in s.threads && IsWriter(s.threads[t]) && id in s.links
    ensures EditedBy(s, WriterStep(c, s, t, o), s.threads[t], id)
  {
    if s.threads[t].Locked? {
      BeginEditsNothing(s, t, o, id);
    } else if s.threads[t].Reread? {
      RereadEditsNothing(c, s, t, o, id);
    } else if s.threads[t].Chosen? {
      ChosenIsNew(w, c, s, t);
      ChosenEditsNothing(c, s, t, o, id);
    } else if s.threads[t].Loaded? || s.threads[t].Doomed? {
      RowChangeEdits(c, s, t, o, id);
    } else {
      OthersWriteNoRows(c, s, t, o);
    }
  }

  lemma SameIsUnedited(a: Link, b: Link)
    ensures Same(a, b) ==> SameButClicks(a, b)
  {
  }

  lemma StepEdits(w: World, c: Config, s: State, e: Event, id: string)
    requires Inv(w, c, s) && Enabled(s, e) && id in s.links && id in Apply(c, s, e).links
    requires !SameButClicks(s.links[id], Apply(c, s, e).links[id])
    ensures ByWriter(s, e) && s.threads[e.t].Loaded? && s.threads[e.t].link.id == id
  {
    if ByWriter(s, e) {
      WriterEdits(w, c, s, e.t, e.oracle, id);
    } else {
      RowsOutsideTheLock(c, s, e);
      SameIsUnedited(s.links[id], Apply(c, s, e).links[id]);
    }
  }

  /** The owner when the call began, or an administrator. */
  predicate MayAsk(s: State, id: string, user: string, isAdmin: bool) {
    id in s.links && (isAdmin || s.links[id].createdBy == user)
  }

  /** The write of an edited copy does as asked. */
  lemma WritingDoesAsAsked(s0: State, rows: Table, id: string, e: Edit, user: string, isAdmin: bool, l: Link)
    requires Updated(s0.links, id, e, user, isAdmin, s0.now) == Some(l) && l.id == id && SameTable(s0.links, rows)
    ensures MayAsk(s0, id, user, isAdmin) && id in rows
    ensures DoneAsAsked(e, s0.links[id], WriteColumns(rows[id], l).(createdBy := s0.links[id].createdBy), s0.now)
    ensures e.accepted && (e.redirectType.Some? ==> e.redirectType.value in {301, 302})
  {
    EditsAreDoneAsAsked(s0.links[id], e, s0.now);
    assert Same(s0.links[id], rows[id]);
    assert WriteColumns(rows[id], l).(createdBy := s0.links[id].createdBy) == l;
  }

  lemma LoadedWrites(c: Config, s: State, t: Tid, o: Oracle, l: Link)
    requires t in s.threads && s.threads[t].Loaded? && s.threads[t].link == l && l.id in s.links
    ensures WriterStep(c, s, t, o).links == s.links[l.id := WriteColumns(s.links[l.id], l)]
  {
  }

  lemma LoadedWritesAsAsked(w: World, c: Config, s0: State, job: Job, o: Oracle, s: State, t: Tid)
    requires Inv(w, c, s) && Underway(c.capacity, s0, job, o, s, t) && s.threads[t].Loaded?
    ensures job.UpdateJob? && job.id == s.threads[t].link.id && MayAsk(s0, job.id, job.user, job.isAdmin)
    ensures job.edit.accepted && (job.edit.redirectType.Some? ==> job.edit.redirectType.value in {301, 302})
    ensures job.id in s.links && Same(s0.links[job.id], s.links[job.id])
    ensures DoneAsAsked(job.edit, s0.links[job.id],
                        WriteColumns(s.links[job.id], s.threads[t].link).(createdBy := s0.links[job.id].createdBy),
                        s0.now)
  {
    WritingDoesAsAsked(s0, s.links, job.id, job.edit, job.user, job.isAdmin, s.threads[t].link);
  }

  /** The updates of a run do to the rows what their requests ask: whenever a step changes more of a row than
      clicks, folders and ownership, it is the write of an update that an administrator or the row's owner asked
      for; each column it names is then as asked, and the others are as they were when the update began. */
  lemma EditsAreAsked(c: Config, start: int, es: seq<Event>, id: string)
    returns (t: Tid, e: Edit, user: string, isAdmin: bool, o: Oracle, s0: State)
    requires Possible(c, start, es) && es != []
    requires var s, s' := After(c, start, es[..|es| - 1]), After(c, start, es);
             id in s.links && id in s'.links && !SameButClicks(s.links[id], s'.links[id])
    ensures Serves(c, start, es[..|es| - 1], t, UpdateJob(id, e, user, isAdmin), o, s0)
    ensures MayAsk(s0, id, user, isAdmin) && Same(s0.links[id], After(c, start, es[..|es| - 1]).links[id])
    ensures e.accepted && (e.redirectType.Some? ==> e.redirectType.value in {301, 302})
    ensures DoneAsAsked(e, s0.links[id], After(c, start, es).links[id].(createdBy := s0.links[id].createdBy), s0.now)
  {
    var before := es[..|es| - 1];
    var w := World(Asked(before), Whole);
    AlwaysInv(w, c, start, before);
    var s := After(c, start, before);
    StepEdits(w, c, s, es[|es| - 1], id);
    t := es[|es| - 1].t;
    var job;
    job, o, s0 := CallBegan(c, start, before, t);
    ServesUnderway(c, start, before, t, job, o, s0);
    LoadedWritesAsAsked(w, c, s0, job, o, s, t);
    LoadedWrites(c, s, t, es[|es| - 1].oracle, s.threads[t].link);
    e, user, isAdmin := job.edit, job.user, job.isAdmin;
  }

  /** A link is switched on again only where an update names that. */
  lemma ReactivationsAreAsked(c: Config, start: int, es: seq<Event>, id: string)
    returns (t: Tid, e: Edit, user: string, isAdmin: bool, o: Oracle, s0: State)
    requires Possible(c, start, es) && es != []
    requires var s, s' := After(c, start, es[..|es| - 1]), After(c, start, es);
             id in s.links && id in s'.links && !s.links[id].isActive && s'.links[id].isActive
    ensures Serves(c, start, es[..|es| - 1], t, UpdateJob(id, e, user, isAdmin), o, s0)
    ensures e.isActive == Some(true) && MayAsk(s0, id, user, isAdmin)
  {
    t, e, user, isAdmin, o, s0 := EditsAreAsked(c, start, es, id);
  }

  // ---------- clicks ----------

  /** A click counts once, at its time; and once more on the first variant of its name. */
  predicate ClickedBy(s: State, s': State, pc: Pc, id: string) {
    id in s.links && id in s'.links ==>
      var row, row' := s.links[id], s'.links[id];
      && (row'.clickCount != row.clickCount || row'.lastClickedAt != row.lastClickedAt ==>
            && pc.Locked? && pc.job.ClickJob? && pc.job.click.id == id
            && row' == row.(clickCount := row.clickCount + 1, lastClickedAt := Some(s.now)))
      && (row'.variants != row.variants && !pc.Loaded? ==>
            && pc.Reread? && pc.click.id == id && pc.click.variant != ""
            && row' == row.(variants := CountVariant(row.variants, pc.click.variant)))
  }

  lemma BeginClicks(s: State, t: Tid, o: Oracle, id: string)
    requires t in s.threads && s.threads[t].Locked?
    ensures ClickedBy(s, Begin(s, t, s.threads[t].job, o), s.threads[t], id)
  {
  }

  lemma RereadClicks(c: Config, s: State, t: Tid, o: Oracle, id: string)
    requires t in s.threads && s.threads[t].Reread?
    requires var Reread(k, l) := s.threads[t]; k.id in s.links && l.variants == s.links[k.id].variants
    ensures ClickedBy(s, WriterStep(c, s, t, o), s.threads[t], id)
  {
  }

  lemma ChosenClicksNothing(c: Config, s: State, t: Tid, o: Oracle, id: string)
    requires t in s.threads && s.threads[t].Chosen? && s.threads[t].link.id != id
    ensures ClickedBy(s, WriterStep(c, s, t, o), s.threads[t], id)
  {
  }

  lemma RowChangeClicksNothing(c: Config, s: State, t: Tid, o: Oracle, id: string)
    requires t in s.threads && (s.threads[t].Loaded? || s.threads[t].Doomed?)
    ensures ClickedBy(s, WriterStep(c, s, t, o), s.threads[t], id)
  {
  }

  lemma StepClicks(w: World, c: Config, s: State, e: Event, id: string)
    requires Inv(w, c, s) && ByWriter(s, e) && Enabled(s, e) && id in s.links
    ensures ClickedBy(s, Apply(c, s, e), s.threads[e.t], id)
  {
    var t, o := e.t, e.oracle;
    if s.threads[t].Locked? {
      BeginClicks(s, t, o, id);
    } else if s.threads[t].Reread? {
      assert PcOk(w, s.links, s.born, s.now, s.threads[t]);
      RereadClicks(c, s, t, o, id);
    } else if s.threads[t].Chosen? {
      ChosenIsNew(w, c, s, t);
      ChosenClicksNothing(c, s, t, o, id);
    } else if WritesRows(s.threads[t]) {
      RowChangeClicksNothing(c, s, t, o, id);
    } else {
      OthersWriteNoRows(c, s, t, o);
    }
  }

  /** Counters and dates of clicks change only by a click on that link, which counts one at the time it is written, and
      the variants' counters only by a later statement of it, or an edit. */
  lemma ClicksAreWritten(c: Config, start: int, es: seq<Event>, id: string)
    requires Possible(c, start, es) && es != [] && Possible(c, start, es[..|es| - 1])
    requires id in After(c, start, es[..|es| - 1]).links
    ensures var s, s', e := After(c, start, es[..|es| - 1]), After(c, start, es), es[|es| - 1];
            if ByWriter(s, e) then ClickedBy(s, s', s.threads[e.t], id)
            else id in s'.links && Same(s.links[id], s'.links[id])
  {
    var before := es[..|es| - 1];
    var w, s, e := World(Asked(before), Whole), After(c, start, before), es[|es| - 1];
    AlwaysInv(w, c, start, before);
    if ByWriter(s, e) {
      StepClicks(w, c, s, e, id);
    } else {
      RowsOutsideTheLock(c, s, e);
    }
  }

  // ---------- folders and owners ----------

  /** Deleting a folder takes exactly its rows out of it, adopting an owner moves exactly that owner's rows, and neither
      touches anything else. */
  lemma OthersWriteTheirColumn(c: Config, s: State, e: Event, id: string)
    requires Enabled(s, e) && (e.FolderDeleted? || e.OwnerAdopted?) && id in s.links
    ensures var row := s.links[id];
            Apply(c, s, e) == s.(links := Apply(c, s, e).links) && id in Apply(c, s, e).links
            && Apply(c, s, e).links[id]
               == if e.FolderDeleted? && row.folderId == Some(e.folder) then row.(folderId := None)
                  else if e.OwnerAdopted? && row.createdBy == e.former then row.(createdBy := e.subject)
                  else row
  {
  }

  // ---------- removals ----------

  predicate RemovedBy(s: State, s': State, pc: Pc, id: string) {
    id in s.links && id !in s'.links ==> pc.Doomed? && pc.link.id == id
  }

  lemma BeginRemovesNothing(s: State, t: Tid, o: Oracle, id: string)
    requires t in s.threads && s.threads[t].Locked?
    ensures RemovedBy(s, Begin(s, t, s.threads[t].job, o), s.threads[t], id)
  {
  }

  lemma ClickRemovesNothing(c: Config, s: State, t: Tid, o: Oracle, id: string)
    requires t in s.threads && s.threads[t].Reread?
    ensures RemovedBy(s, WriterStep(c, s, t, o), s.threads[t], id)
  {
  }

  lemma RowChangeRemoves(c: Config, s: State, t: Tid, o: Oracle, id: string)
    requires t in s.threads && (s.threads[t].Chosen? || s.threads[t].Loaded? || s.threads[t].Doomed?)
    ensures RemovedBy(s, WriterStep(c, s, t, o), s.threads[t], id)
  {
  }

  lemma StepRemoves(w: World, c: Config, s: State, e: Event, id: string)
    requires Inv(w, c, s) && Enabled(s, e) && id in s.links && id !in Apply(c, s, e).links
    ensures ByWriter(s, e) && s.threads[e.t].Doomed? && s.threads[e.t].link.id == id
  {
    if ByWriter(s, e) {
      if s.threads[e.t].Locked? {
        BeginRemovesNothing(s, e.t, e.oracle, id);
      } else if s.threads[e.t].Reread? {
        ClickRemovesNothing(c, s, e.t, e.oracle, id);
      } else if WritesRows(s.threads[e.t]) {
        RowChangeRemoves(c, s, e.t, e.oracle, id);
      } else {
        OthersWriteNoRows(c, s, e.t, e.oracle);
      }
    } else {
      RowsOutsideTheLock(c, s, e);
    }
  }

  lemma DoomedIsAsked(c: Config, s0: State, job: Job, o: Oracle, s: State, t: Tid)
    requires Underway(c.capacity, s0, job, o, s, t) && s.threads[t].Doomed?
    ensures job.DeleteJob? && job.id == s.threads[t].link.id && MayAsk(s0, job.id, job.user, job.isAdmin)
  {
  }

  /** A row is removed only by a deletion that an administrator or its owner asked for. */
  lemma RemovalsAreAsked(c: Config, start: int, es: seq<Event>, id: string)
    returns (t: Tid, user: string, isAdmin: bool, o: Oracle, s0: State)
    requires Possible(c, start, es) && es != []
    requires id in After(c, start, es[..|es| - 1]).links && id !in After(c, start, es).links
    ensures Serves(c, start, es[..|es| - 1], t, DeleteJob(id, user, isAdmin), o, s0)
    ensures MayAsk(s0, id, user, isAdmin)
  {
    var before := es[..|es| - 1];
    var w := World(Asked(before), Whole);
    AlwaysInv(w, c, start, before);
    var s := After(c, start, before);
    StepRemoves(w, c, s, es[|es| - 1], id);
    t := es[|es| - 1].t;
    var job;
    job, o, s0 := CallBegan(c, start, before, t);
    ServesUnderway(c, start, before, t, job, o, s0);
    DoomedIsAsked(c, s0, job, o, s, t);
    user, isAdmin := job.user, job.isAdmin;
  }

  // ---------- insertions ----------

  /** A new row is what the request says: at its address, unclicked and active, titled by its slug where it has no
      title, permanent only if it says so, and ending at its date or after its hours if either is positive. */
  predicate MadeAsAsked(r: CreateRequest, generated: string, row: Link, now: int) {
    && row.domain == r.domain && row.slug == (if r.customSlug == "" then generated else r.customSlug)
    && row.targetUrl == r.fields.targetUrl && row.originalUrl == r.fields.originalUrl
    && row.title == (if r.fields.title == "" then row.slug else r.fields.title)
    && row.folderId == r.fields.folderId && row.tags == r.fields.tags && row.pinHash == r.fields.pinHash
    && (r.fields.redirectType == 301 <==> row.redirectType == 301) && row.redirectType in {301, 302}
    && (if r.fields.expiresAt.Some? && r.fields.expiresAt.value > 0 then row.expiresAt == r.fields.expiresAt
        else AsDated(r.hours, None, None, row.expiresAt, now))
    && row.maxClicks == r.fields.maxClicks && row.clickCount == 0 && row.lastClickedAt == None
    && row.createdBy == r.fields.createdBy && row.isActive
    && row.iosUrl == r.fields.iosUrl && row.androidUrl == r.fields.androidUrl
    && row.localeRouting == r.fields.localeRouting && row.variants == r.fields.variants
    && row.createdAt == now && row.updatedAt == now
  }

  predicate InsertedBy(s: State, s': State, pc: Pc, id: string) {
    id !in s.links && id in s'.links ==>
      pc.Chosen? && pc.link.id == id && s'.links[id] == pc.link && !Exists(s.links, pc.link.domain, pc.link.slug)
  }

  lemma BeginInsertsNothing(s: State, t: Tid, o: Oracle, id: string)
    requires t in s.threads && s.threads[t].Locked?
    ensures InsertedBy(s, Begin(s, t, s.threads[t].job, o), s.threads[t], id)
  {
  }

  lemma ClickInsertsNothing(c: Config, s: State, t: Tid, o: Oracle, id: string)
    requires t in s.threads && s.threads[t].Reread?
    ensures InsertedBy(s, WriterStep(c, s, t, o), s.threads[t], id)
  {
  }

  lemma RowChangeInserts(c: Config, s: State, t: Tid, o: Oracle, id: string)
    requires t in s.threads && (s.threads[t].Chosen? || s.threads[t].Loaded? || s.threads[t].Doomed?)
    ensures InsertedBy(s, WriterStep(c, s, t, o), s.threads[t], id)
  {
  }

  lemma StepInserts(w: World, c: Config, s: State, e: Event, id: string)
    requires Inv(w, c, s) && Enabled(s, e) && id !in s.links && id in Apply(c, s, e).links
    ensures ByWriter(s, e) && s.threads[e.t].Chosen?
    ensures InsertedBy(s, Apply(c, s, e), s.threads[e.t], id)
  {
    if ByWriter(s, e) {
      if s.threads[e.t].Locked? {
        BeginInsertsNothing(s, e.t, e.oracle, id);
      } else if s.threads[e.t].Reread? {
        ClickInsertsNothing(c, s, e.t, e.oracle, id);
      } else if WritesRows(s.threads[e.t]) {
        RowChangeInserts(c, s, e.t, e.oracle, id);
      } else {
        OthersWriteNoRows(c, s, e.t, e.oracle);
      }
    } else {
      RowsOutsideTheLock(c, s, e);
    }
  }

  lemma ChosenIsMadeAsAsked(w: World, c: Config, s0: State, job: Job, o: Oracle, s: State, t: Tid)
    requires Inv(w, c, s) && Underway(c.capacity, s0, job, o, s, t) && s.threads[t].Chosen?
    requires var l := s.threads[t].link; !Exists(s.links, l.domain, l.slug)
    ensures job.CreateJob? && job.request.accepted && Storable(s.threads[t].link.slug) && s.threads[t].link.id == o.id
    ensures MadeAsAsked(job.request, o.slug, s.threads[t].link, s0.now)
  {
    var l := s.threads[t].link;
    SameAddresses(s0.links, s.links, l.domain, l.slug);
  }

  /** A row is inserted only by a creation whose request is sound, at a free address, and is what was asked for. */
  lemma InsertionsAreAsked(c: Config, start: int, es: seq<Event>, id: string)
    returns (t: Tid, r: CreateRequest, o: Oracle, s0: State)
    requires Possible(c, start, es) && es != []
    requires id !in After(c, start, es[..|es| - 1]).links && id in After(c, start, es).links
    ensures Serves(c, start, es[..|es| - 1], t, CreateJob(r), o, s0) && r.accepted && id == o.id
    ensures var row := After(c, start, es).links[id];
            && MadeAsAsked(r, o.slug, row, s0.now) && Storable(row.slug)
            && !Exists(After(c, start, es[..|es| - 1]).links, row.domain, row.slug)
  {
    var before := es[..|es| - 1];
    var w := World(Asked(before), Whole);
    AlwaysInv(w, c, start, before);
    var s := After(c, start, before);
    StepInserts(w, c, s, es[|es| - 1], id);
    t := es[|es| - 1].t;
    var job;
    job, o, s0 := CallBegan(c, start, before, t);
    ServesUnderway(c, start, before, t, job, o, s0);
    ChosenIsMadeAsAsked(w, c, s0, job, o, s, t);
    r := job.request;
  }
}
