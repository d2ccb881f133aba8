/** A cache with room for one entry: whatever is stored pushes out the copy before, so that even a stray copy
    never outlives the pausing of its link. */
module LinkStoreLone {
  import opened Wrappers
  import opened Links
  import opened LinkStore
  import opened LinkStoreInvariant
  import opened LinkStoreSteps
  import opened LinkStoreTheorems
  import C = CacheModel

  // ---------- the invariant ----------

  /** The copy is as active as its row, if it has one. */
  predicate Agrees(links: Table, l: Link) {
    l.id in links ==> l.isActive == links[l.id].isActive
  }

  /** The row an update has written and is about to publish. */
  function Unpublished(s: State): Option<string> {
    if s.writer.Some? && s.writer.value in s.threads && s.threads[s.writer.value].Written?
    then Some(s.threads[s.writer.value].link.id)
    else None
  }

  predicate CopiesAgree(links: Table, cache: seq<C.Entry>, unpublished: Option<string>) {
    forall e :: e in cache && unpublished != Some(e.link.id) ==> Agrees(links, e.link)
  }

  predicate HeldAgrees(links: Table, pc: Pc) {
    match pc
    case Judging(_, _, l, _) => Agrees(links, l)
    case Dropping(_, _, l, _) => Agrees(links, l)
    case Publishing(_, _, l, _) => Agrees(links, l)
    case Answered(_, _, answer, _) => answer.Missing? || Agrees(links, answer.link)
    case _ => true
  }

  predicate LoneOk(s: State) {
    && CopiesAgree(s.links, s.cache, Unpublished(s))
    && forall t :: t in s.threads ==> HeldAgrees(s.links, s.threads[t])
  }

  lemma LoneSet(cache: seq<C.Entry>, now: int, d: string, g: string, l: Link)
    requires C.WellFormed(cache, 1)
    ensures C.Set(cache, 1, now, d, g, l) == [C.Entry(FormatCacheKey(d, g), l, now)]
  {
    if cache != [] {
      assert cache == [cache[0]] && cache[1..] == [];
    }
  }

  // ---------- readers ----------

  lemma LookAgrees(s: State, ttl: int, d: string, g: string)
    requires CopiesAgree(s.links, s.cache, None)
    ensures var r := C.Get(s.cache, ttl, s.now, d, g);
            CopiesAgree(s.links, r.list, None) && (r.hit.Some? ==> Agrees(s.links, r.hit.value))
  {
    if C.HitKey(s.cache, d, g).Some? {
      C.WithoutMembers(s.cache, C.HitKey(s.cache, d, g).value);
    }
  }

  lemma DeleteAgrees(links: Table, cache: seq<C.Entry>, unpublished: Option<string>, d: string, g: string)
    requires CopiesAgree(links, cache, unpublished)
    ensures CopiesAgree(links, C.Delete(cache, d, g), unpublished)
  {
    C.WithoutMembers(cache, FormatCacheKey(d, g));
    C.WithoutMembers(C.Without(cache, FormatCacheKey(d, g)), g);
  }

  lemma RawAgrees(links: Table, born: Addresses, d: string, g: string)
    requires TableOk(links, born)
    ensures Raw(links, d, g).Some? ==> Agrees(links, Raw(links, d, g).value)
  {
    RawPrefersTheDomain(links, born, d, g);
  }

  /** What a step under the read lock leaves in the cache and in hand. */
  lemma CacheReaderAgrees(w: World, c: Config, s: State, t: Tid)
    requires Inv(w, c, s) && c.capacity == 1 && t in s.threads && CopiesAgree(s.links, s.cache, None)
    requires s.threads[t].Looking? || s.threads[t].Dropping? || s.threads[t].Publishing?
    requires HeldAgrees(s.links, s.threads[t])
    ensures var s' := ReaderStep(c, s, t);
            CopiesAgree(s.links, s'.cache, None) && HeldAgrees(s.links, s'.threads[t])
  {
    if s.threads[t].Looking? {
      LookAgrees(s, c.ttl, s.threads[t].domain, s.threads[t].slug);
    } else if s.threads[t].Dropping? {
      DeleteAgrees(s.links, s.cache, None, s.threads[t].domain, s.threads[t].slug);
    } else {
      LoneSet(s.cache, s.now, s.threads[t].link.domain, s.threads[t].link.slug, s.threads[t].link);
    }
  }

  lemma TableReaderAgrees(w: World, c: Config, s: State, t: Tid)
    requires Inv(w, c, s) && t in s.threads && HeldAgrees(s.links, s.threads[t])
    requires s.threads[t].Judging? || s.threads[t].Reading? || s.threads[t].ReadingRoot?
    ensures var s' := ReaderStep(c, s, t); s'.cache == s.cache && HeldAgrees(s.links, s'.threads[t])
  {
    RawAgrees(s.links, s.born, s.threads[t].domain, s.threads[t].slug);
    RawAgrees(s.links, s.born, "", s.threads[t].slug);
  }

  lemma ReaderAgrees(w: World, c: Config, s: State, t: Tid)
    requires Inv(w, c, s) && c.capacity == 1 && t in s.threads && IsReader(s.threads[t])
    requires CopiesAgree(s.links, s.cache, None) && HeldAgrees(s.links, s.threads[t])
    ensures var s' := ReaderStep(c, s, t);
            CopiesAgree(s.links, s'.cache, None) && (t in s'.threads ==> HeldAgrees(s.links, s'.threads[t]))
  {
    if s.threads[t].Looking? || s.threads[t].Dropping? || s.threads[t].Publishing? {
      CacheReaderAgrees(w, c, s, t);
    } else if !s.threads[t].Answered? {
      TableReaderAgrees(w, c, s, t);
    }
  }

  /** Readers leave the rows and the other threads alone, and no writer is at work. */
  lemma OthersUnderRead(c: Config, s: State, t: Tid)
    requires LocksOk(s) && t in s.threads && IsReader(s.threads[t])
    ensures var s' := ReaderStep(c, s, t);
            && s'.links == s.links && s'.writer.None? && s.writer.None?
            && s'.threads.Keys <= s.threads.Keys
            && forall u :: u in s'.threads && u != t ==> s'.threads[u] == s.threads[u]
  {
    if s.threads[t].Looking? || s.threads[t].Dropping? || s.threads[t].Publishing? {
      OthersUnderCacheRead(c, s, t);
    }
  }

  lemma OthersUnderCacheRead(c: Config, s: State, t: Tid)
    requires t in s.threads && (s.threads[t].Looking? || s.threads[t].Dropping? || s.threads[t].Publishing?)
    ensures var s' := ReaderStep(c, s, t);
            && s'.links == s.links && s'.writer == s.writer
            && s'.threads == s.threads[t := s'.threads[t]]
  {
  }

  lemma ReaderKeepsLone(w: World, c: Config, s: State, t: Tid)
    requires Inv(w, c, s) && c.capacity == 1 && LoneOk(s) && t in s.threads && IsReader(s.threads[t])
    ensures LoneOk(ReaderStep(c, s, t))
  {
    OthersUnderRead(c, s, t);
    ReaderAgrees(w, c, s, t);
  }

  // ---------- writers ----------

  /** Nobody holds a link under the read lock while a writer is at work. */
  lemma NobodyHolds(w: World, c: Config, s: State, t: Tid, s': State)
    requires Inv(w, c, s) && t in s.threads && IsWriter(s.threads[t])
    requires t in s'.threads ==> !IsReader(s'.threads[t])
    requires s'.threads.Keys <= s.threads.Keys && forall u :: u in s'.threads && u != t ==>
            s'.threads[u] == s.threads[u]
    ensures forall u :: u in s'.threads ==> HeldAgrees(s'.links, s'.threads[u])
  {
    forall u | u in s'.threads ensures HeldAgrees(s'.links, s'.threads[u]) {
      if u != t {
        OthersAreFree(w, c, s, t, u);
      }
    }
  }

  /** A row changes its is_active only on the way to being published. */
  lemma RowsAgree(w: World, c: Config, s: State, t: Tid, o: Oracle, e: C.Entry)
    requires Inv(w, c, s) && t in s.threads && IsWriter(s.threads[t]) && e in s.cache && Agrees(s.links, e.link)
    requires s.threads[t].Loaded? ==> s.threads[t].link.id != e.link.id
    ensures Agrees(WriterStep(c, s, t, o).links, e.link)
  {
    assert EntryOk(w, e, s.links, s.born, Stale(w.mode, s));
    RowsUnderTheLock(w, c, s, t, o, e.link.id);
  }

  predicate Publishes(pc: Pc) {
    pc.Tallied? || pc.Inserted? || pc.Written?
  }

  /** The copy a writer publishes is the row's. */
  lemma PublishedIsLive(w: World, c: Config, s: State, t: Tid)
    requires Inv(w, c, s) && t in s.threads && Publishes(s.threads[t])
    ensures LiveCopy(s.links, s.threads[t].link)
  {
    assert PcOk(w, s.links, s.born, s.now, s.threads[t]);
  }

  lemma PublisherAgrees(w: World, c: Config, s: State, t: Tid, o: Oracle)
    requires Inv(w, c, s) && c.capacity == 1 && t in s.threads && Publishes(s.threads[t])
    requires s.threads[t].Tallied? ==> CopiesAgree(s.links, s.cache, None)
    ensures var s' := WriterStep(c, s, t, o);
            && s'.links == s.links && CopiesAgree(s.links, s'.cache, None) && s'.writer == s.writer
            && s'.threads == s.threads[t := Leaving]
  {
    PublishedIsLive(w, c, s, t);
    var l := s.threads[t].link;
    if s.threads[t].Tallied? {
      var k := s.threads[t].click;
      DeleteAgrees(s.links, s.cache, None, k.domain, k.slug);
      LoneSet(s.cache, s.now, k.domain, k.slug, l);
    } else {
      LoneSet(s.cache, s.now, l.domain, l.slug, l);
    }
  }

  lemma PublisherKeepsLone(w: World, c: Config, s: State, t: Tid, o: Oracle)
    requires Inv(w, c, s) && c.capacity == 1 && LoneOk(s) && t in s.threads && Publishes(s.threads[t])
    ensures LoneOk(WriterStep(c, s, t, o))
  {
    var s' := WriterStep(c, s, t, o);
    assert s.writer == Some(t);
    PublisherAgrees(w, c, s, t, o);
    NobodyHolds(w, c, s, t, s');
    assert Unpublished(s') == None;
  }

  lemma RemovedKeepsLone(w: World, c: Config, s: State, t: Tid, o: Oracle)
    requires Inv(w, c, s) && LoneOk(s) && t in s.threads && s.threads[t].Removed?
    ensures LoneOk(WriterStep(c, s, t, o))
  {
    var l := s.threads[t].link;
    var s' := s.(cache := C.Delete(s.cache, l.domain, l.slug), threads := s.threads[t := Leaving]);
    assert s.writer == Some(t);
    DeleteAgrees(s.links, s.cache, None, l.domain, l.slug);
    NobodyHolds(w, c, s, t, s');
    assert Unpublished(s') == None;
  }

  /** What a writer that leaves the cache alone does to the threads. */
  predicate Silent(pc: Pc) {
    pc.Locked? || pc.Counted? || pc.Reread? || pc.Chosen? || pc.Loaded? || pc.Doomed? || pc.Leaving?
  }

  /** It keeps its lock or goes, and comes to a publication only from an update. */
  predicate SilentStep(s: State, s': State, t: Tid, pc: Pc) {
    && s'.cache == s.cache
    && (s'.threads == s.threads - {t} || (t in s'.threads && s'.threads == s.threads[t := s'.threads[t]]))
    && (s'.writer == None || s'.writer == s.writer)
    && (t in s'.threads ==> !IsReader(s'.threads[t]))
    && (if pc.Loaded? then t in s'.threads && s'.writer == s.writer && s'.threads[t] == Written(pc.link)
        else t in s'.threads ==> !s'.threads[t].Written?)
  }

  lemma BeginIsSilent(s: State, t: Tid, job: Job, o: Oracle)
    ensures SilentStep(s, Begin(s, t, job, o), t, Locked(job))
  {
  }

  lemma ClickIsSilent(c: Config, s: State, t: Tid, o: Oracle)
    requires t in s.threads && (s.threads[t].Counted? || s.threads[t].Reread? || s.threads[t].Leaving?)
    ensures SilentStep(s, WriterStep(c, s, t, o), t, s.threads[t])
  {
  }

  lemma RowChangeIsSilent(c: Config, s: State, t: Tid, o: Oracle)
    requires t in s.threads && (s.threads[t].Chosen? || s.threads[t].Loaded? || s.threads[t].Doomed?)
    ensures SilentStep(s, WriterStep(c, s, t, o), t, s.threads[t])
  {
  }

  lemma SilentWriter(c: Config, s: State, t: Tid, o: Oracle)
    requires t in s.threads && Silent(s.threads[t])
    ensures SilentStep(s, WriterStep(c, s, t, o), t, s.threads[t])
  {
    if s.threads[t].Locked? {
      BeginIsSilent(s, t, s.threads[t].job, o);
    } else if s.threads[t].Counted? || s.threads[t].Reread? || s.threads[t].Leaving? {
      ClickIsSilent(c, s, t, o);
    } else {
      RowChangeIsSilent(c, s, t, o);
    }
  }

  lemma SilentKeepsLone(w: World, c: Config, s: State, t: Tid, o: Oracle)
    requires Inv(w, c, s) && LoneOk(s) && t in s.threads && Silent(s.threads[t])
    ensures LoneOk(WriterStep(c, s, t, o))
  {
    var s' := WriterStep(c, s, t, o);
    assert s.writer == Some(t);
    SilentWriter(c, s, t, o);
    NobodyHolds(w, c, s, t, s');
    forall e | e in s'.cache && Unpublished(s') != Some(e.link.id) ensures Agrees(s'.links, e.link) {
      RowsAgree(w, c, s, t, o, e);
    }
  }

  lemma WriterKeepsLone(w: World, c: Config, s: State, t: Tid, o: Oracle)
    requires Inv(w, c, s) && c.capacity == 1 && LoneOk(s) && t in s.threads && IsWriter(s.threads[t])
    ensures LoneOk(WriterStep(c, s, t, o))
  {
    if Publishes(s.threads[t]) {
      PublisherKeepsLone(w, c, s, t, o);
    } else if s.threads[t].Removed? {
      RemovedKeepsLone(w, c, s, t, o);
    } else {
      SilentKeepsLone(w, c, s, t, o);
    }
  }

  // ---------- everything else ----------

  /** Neither lock is held by whoever moves, and the rows keep their is_active. */
  lemma ElsewhereKeepsLone(s: State, s': State)
    requires LoneOk(s) && s'.cache == s.cache && SameTable(s.links, s'.links) && Unpublished(s') == Unpublished(s)
    requires forall t :: t in s'.threads ==>
            (t in s.threads && s'.threads[t] == s.threads[t]) || HeldAgrees(s.links, s'.threads[t])
    ensures LoneOk(s')
  {
    assert forall id :: id in s.links ==> Same(s.links[id], s'.links[id]);
    forall t | t in s'.threads ensures HeldAgrees(s'.links, s'.threads[t]) {
      assert HeldAgrees(s.links, s'.threads[t]);
    }
  }

  /** A thread outside the locks comes, moves on or goes. */
  lemma ThreadKeepsLone(s: State, s': State, t: Tid)
    requires LoneOk(s) && s'.cache == s.cache && s'.links == s.links && Unpublished(s') == Unpublished(s)
    requires s'.threads == s.threads - {t} || (t in s'.threads && s'.threads == s.threads[t := s'.threads[t]])
    requires t in s'.threads ==> HeldAgrees(s.links, s'.threads[t])
    ensures LoneOk(s')
  {
  }

  lemma FreeThread(s: State, t: Tid, o: Oracle)
    requires LocksOk(s) && Enabled(s, Go(t, o)) && !IsReader(s.threads[t]) && !IsWriter(s.threads[t])
    ensures var s' := FreeStep(s, t, o);
            && s'.cache == s.cache && s'.links == s.links && Unpublished(s') == Unpublished(s)
            && (s'.threads == s.threads - {t} || (t in s'.threads && s'.threads == s.threads[t := s'.threads[t]]))
            && (t in s'.threads ==> HeldAgrees(s.links, s'.threads[t]))
  {
    assert s.writer != Some(t);
  }

  lemma FreeKeepsLone(s: State, t: Tid, o: Oracle)
    requires LocksOk(s) && LoneOk(s) && Enabled(s, Go(t, o)) && !IsReader(s.threads[t]) && !IsWriter(s.threads[t])
    ensures LoneOk(FreeStep(s, t, o))
  {
    FreeThread(s, t, o);
    ThreadKeepsLone(s, FreeStep(s, t, o), t);
  }

  lemma ArrivalKeepsLone(s: State, t: Tid, pc: Pc)
    requires LocksOk(s) && LoneOk(s) && t !in s.threads && !IsReader(pc)
    ensures LoneOk(s.(threads := s.threads[t := pc]))
  {
    assert s.writer != Some(t);
    ThreadKeepsLone(s, s.(threads := s.threads[t := pc]), t);
  }

  lemma GrantKeepsLone(s: State, t: Tid, l: Link, g: string)
    requires LocksOk(s) && LoneOk(s) && t !in s.threads
    ensures LoneOk(Granted(s, t, l, g, true))
  {
    assert s.writer != Some(t);
    ThreadKeepsLone(s, Granted(s, t, l, g, true), t);
  }

  lemma OutsideKeepsLone(c: Config, s: State, e: Event)
    requires LoneOk(s) && (e.Tick? || e.FolderDeleted? || e.OwnerAdopted?)
    ensures LoneOk(Apply(c, s, e))
  {
    RowsOutsideTheLock(c, s, e);
    ElsewhereKeepsLone(s, Apply(c, s, e));
  }

  lemma GoKeepsLone(w: World, c: Config, s: State, t: Tid, o: Oracle)
    requires Inv(w, c, s) && c.capacity == 1 && LoneOk(s) && Enabled(s, Go(t, o))
    ensures LoneOk(Apply(c, s, Go(t, o)))
  {
    if IsReader(s.threads[t]) {
      ReaderKeepsLone(w, c, s, t);
    } else if IsWriter(s.threads[t]) {
      WriterKeepsLone(w, c, s, t, o);
    } else {
      FreeKeepsLone(s, t, o);
    }
  }

  lemma StepKeepsLone(w: World, c: Config, s: State, e: Event)
    requires Inv(w, c, s) && c.capacity == 1 && LoneOk(s) && Enabled(s, e)
    ensures LoneOk(Apply(c, s, e))
  {
    if e.Go? {
      GoKeepsLone(w, c, s, e.t, e.oracle);
    } else if e.Arrive? {
      ArrivalKeepsLone(s, e.t, e.pc);
    } else if e.VerifyPin? {
      if Raw(s.links, e.domain, e.slug).Some? {
        GrantKeepsLone(s, e.t, Raw(s.links, e.domain, e.slug).value, e.slug);
      }
    } else {
      OutsideKeepsLone(c, s, e);
    }
  }

  /** In a cache of one, every copy cached or in a reader's hand is as active as its row, unless an update is
      about to publish that row; in every run, whatever is asked. */
  lemma {:induction false} LoneCopiesAgree(c: Config, start: int, es: seq<Event>)
    requires c.capacity == 1 && Possible(c, start, es)
    ensures LoneOk(After(c, start, es))
  {
    if es != [] {
      var n := |es| - 1;
      LoneCopiesAgree(c, start, es[..n]);
      AlwaysInv(World(Asked(es[..n]), Whole), c, start, es[..n]);
      StepKeepsLone(World(Asked(es[..n]), Whole), c, After(c, start, es[..n]), es[n]);
    }
  }
}
