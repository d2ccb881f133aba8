/** A cache with room for one entry, where whatever is stored pushes out the copy before: which copies are then
    current, though lookups may mistake their links. */
module LinkStoreOneEntry {
  import opened Wrappers
  import opened Links
  import opened LinkKeys
  import opened LinkStore
  import opened LinkStoreInvariant
  import opened LinkStoreSteps
  import opened LinkStoreTheorems
  import opened LinkStoreLone
  import opened LinkStoreBudgets
  import C = CacheModel

  // ---------- the invariant ----------

  /** An entry under the own key of a link that does not slip. */
  ghost predicate Firm(asked: iset<Address>, e: C.Entry) {
    e.key == OwnKey(HomeOf(e.link)) && !Slips(asked, HomeOf(e.link))
  }

  ghost predicate CopiesLive(asked: iset<Address>, links: Table, cache: seq<C.Entry>, stale: Option<string>) {
    forall e :: e in cache && Firm(asked, e) && stale != Some(e.link.id) ==> LiveCopy(links, e.link)
  }

  ghost predicate FoundLive(asked: iset<Address>, links: Table, q: Address, l: Link) {
    SureAlone(asked, q) ==> LiveCopy(links, l)
  }

  ghost predicate HeldLive(asked: iset<Address>, links: Table, pc: Pc) {
    match pc
    case Judging(d, g, l, _) => FoundLive(asked, links, (d, g), l)
    case Dropping(d, g, l, _) => FoundLive(asked, links, (d, g), l)
    case Publishing(d, g, l, _) => FoundLive(asked, links, (d, g), l)
    case Answered(d, g, answer, _) => answer.Missing? || FoundLive(asked, links, (d, g), answer.link)
    case _ => true
  }

  ghost predicate LiveOk(asked: iset<Address>, s: State) {
    && CopiesLive(asked, s.links, s.cache, Stale(Whole, s))
    && forall t :: t in s.threads ==> HeldLive(asked, s.links, s.threads[t])
  }

  // ---------- readers ----------

  lemma HitLive(w: World, cache: seq<C.Entry>, capacity: nat, links: Table, born: Addresses, q: Address, e: C.Entry)
    requires CacheOk(w, cache, capacity, links, born, None) && e in cache && Tries(q, e.key)
    requires CopiesLive(w.asked, links, cache, None)
    ensures FoundLive(w.asked, links, q, e.link)
  {
    assert EntryOk(w, e, links, born, None);
    if SureAlone(w.asked, q) {
      assert Stored(HomeOf(e.link)) && Files(w.asked, HomeOf(e.link), e.key);
    }
  }

  lemma LookLive(w: World, cache: seq<C.Entry>, capacity: nat, links: Table, born: Addresses, ttl: int, now: int,
                 q: Address)
    requires CacheOk(w, cache, capacity, links, born, None) && CopiesLive(w.asked, links, cache, None)
    ensures var r := C.Get(cache, ttl, now, q.0, q.1);
            && CopiesLive(w.asked, links, r.list, None)
            && (r.hit.Some? ==> FoundLive(w.asked, links, q, r.hit.value))
  {
    if C.HitKey(cache, q.0, q.1).Some? {
      var key := C.HitKey(cache, q.0, q.1).value;
      C.WithoutMembers(cache, key);
      HitLive(w, cache, capacity, links, born, q, C.Find(cache, key));
    }
  }

  lemma DeleteLive(asked: iset<Address>, links: Table, cache: seq<C.Entry>, stale: Option<string>, d: string, g: string)
    requires CopiesLive(asked, links, cache, stale)
    ensures CopiesLive(asked, links, C.Delete(cache, d, g), stale)
  {
    C.WithoutMembers(cache, FormatCacheKey(d, g));
    C.WithoutMembers(C.Without(cache, FormatCacheKey(d, g)), g);
  }

  /** Storing the row leaves nothing else. */
  lemma SetLive(asked: iset<Address>, links: Table, cache: seq<C.Entry>, now: int, d: string, g: string, l: Link)
    requires C.WellFormed(cache, 1) && LiveCopy(links, l)
    ensures CopiesLive(asked, links, C.Set(cache, 1, now, d, g, l), None)
  {
    LoneSet(cache, now, d, g, l);
  }

  lemma LookingLive(w: World, c: Config, s: State, t: Tid)
    requires Inv(w, c, s) && t in s.threads && s.threads[t].Looking? && CopiesLive(w.asked, s.links, s.cache, None)
    ensures var s' := ReaderStep(c, s, t);
            CopiesLive(w.asked, s.links, s'.cache, None) && HeldLive(w.asked, s.links, s'.threads[t])
  {
    assert Stale(w.mode, s) == None;
    LookLive(w, s.cache, c.capacity, s.links, s.born, c.ttl, s.now, (s.threads[t].domain, s.threads[t].slug));
  }

  lemma PublishingLive(w: World, c: Config, s: State, t: Tid)
    requires Inv(w, c, s) && c.capacity == 1 && t in s.threads && s.threads[t].Publishing?
    ensures var s' := ReaderStep(c, s, t);
            CopiesLive(w.asked, s.links, s'.cache, None) && HeldLive(w.asked, s.links, s'.threads[t])
  {
    assert PcOk(w, s.links, s.born, s.now, s.threads[t]);
    var l := s.threads[t].link;
    SetLive(w.asked, s.links, s.cache, s.now, l.domain, l.slug, l);
  }

  lemma TableReaderLive(w: World, c: Config, s: State, t: Tid)
    requires Inv(w, c, s) && t in s.threads && HeldLive(w.asked, s.links, s.threads[t])
    requires s.threads[t].Judging? || s.threads[t].Reading? || s.threads[t].ReadingRoot?
    ensures var s' := ReaderStep(c, s, t); s'.cache == s.cache && HeldLive(w.asked, s.links, s'.threads[t])
  {
    RawPrefersTheDomain(s.links, s.born, s.threads[t].domain, s.threads[t].slug);
    RawPrefersTheDomain(s.links, s.born, "", s.threads[t].slug);
  }

  lemma ReaderLive(w: World, c: Config, s: State, t: Tid)
    requires Inv(w, c, s) && c.capacity == 1 && t in s.threads && IsReader(s.threads[t])
    requires CopiesLive(w.asked, s.links, s.cache, None) && HeldLive(w.asked, s.links, s.threads[t])
    ensures var s' := ReaderStep(c, s, t);
            && CopiesLive(w.asked, s.links, s'.cache, None)
            && (t in s'.threads ==> HeldLive(w.asked, s.links, s'.threads[t]))
  {
    if s.threads[t].Looking? {
      LookingLive(w, c, s, t);
    } else if s.threads[t].Dropping? {
      DeleteLive(w.asked, s.links, s.cache, None, s.threads[t].domain, s.threads[t].slug);
    } else if s.threads[t].Publishing? {
      PublishingLive(w, c, s, t);
    } else if !s.threads[t].Answered? {
      TableReaderLive(w, c, s, t);
    }
  }

  lemma ReaderKeepsLive(w: World, c: Config, s: State, t: Tid)
    requires Inv(w, c, s) && c.capacity == 1 && LiveOk(w.asked, s) && t in s.threads && IsReader(s.threads[t])
    ensures LiveOk(w.asked, ReaderStep(c, s, t))
  {
    OthersUnderRead(c, s, t);
    ReaderLive(w, c, s, t);
  }

  // ---------- writers ----------

  lemma NobodyFound(w: World, c: Config, s: State, t: Tid, s': State)
    requires Inv(w, c, s) && t in s.threads && IsWriter(s.threads[t])
    requires t in s'.threads ==> !IsReader(s'.threads[t])
    requires s'.threads.Keys <= s.threads.Keys
    requires forall u :: u in s'.threads && u != t ==> s'.threads[u] == s.threads[u]
    ensures forall u :: u in s'.threads ==> HeldLive(w.asked, s'.links, s'.threads[u])
  {
    forall u | u in s'.threads ensures HeldLive(w.asked, s'.links, s'.threads[u]) {
      if u != t {
        OthersAreFree(w, c, s, t, u);
      }
    }
  }

  /** What is deleted under a click's address, or the link's own, includes the link's own entry. */
  lemma DroppedIsSettled(w: World, s: State, capacity: nat, stale: Option<string>, id: string, d: string, g: string)
    requires CacheOk(w, s.cache, capacity, s.links, s.born, stale) && CopiesLive(w.asked, s.links, s.cache, Some(id))
    requires id in s.born && d == s.born[id].0 && Files(w.asked, s.born[id], FormatCacheKey(d, g))
    ensures CopiesLive(w.asked, s.links, C.Delete(s.cache, d, g), None)
  {
    DeleteLive(w.asked, s.links, s.cache, Some(id), d, g);
    C.WithoutMembers(s.cache, FormatCacheKey(d, g));
    C.WithoutMembers(C.Without(s.cache, FormatCacheKey(d, g)), g);
    forall e | e in C.Delete(s.cache, d, g) && Firm(w.asked, e) ensures e.link.id != id {
      assert EntryOk(w, e, s.links, s.born, stale);
      if e.link.id == id {
        UnslippedDropsOwnKey(w.asked, s.born[id], g);
      }
    }
  }

  lemma TalliedLive(w: World, c: Config, s: State, t: Tid, o: Oracle)
    requires Inv(w, c, s) && c.capacity == 1 && t in s.threads && s.threads[t].Tallied?
    requires CopiesLive(w.asked, s.links, s.cache, Some(s.threads[t].click.id))
    ensures CopiesLive(w.asked, s.links, WriterStep(c, s, t, o).cache, None)
  {
    assert PcOk(w, s.links, s.born, s.now, s.threads[t]);
    var Tallied(k, l) := s.threads[t];
    if l.IsExpired(s.now) {
      DroppedIsSettled(w, s, c.capacity, Stale(w.mode, s), k.id, k.domain, k.slug);
    } else {
      SetLive(w.asked, s.links, s.cache, s.now, k.domain, k.slug, l);
    }
  }

  lemma PublishedLive(w: World, c: Config, s: State, t: Tid, o: Oracle)
    requires Inv(w, c, s) && c.capacity == 1 && t in s.threads && (s.threads[t].Inserted? || s.threads[t].Written?)
    ensures CopiesLive(w.asked, s.links, WriterStep(c, s, t, o).cache, None)
  {
    assert PcOk(w, s.links, s.born, s.now, s.threads[t]);
    var l := s.threads[t].link;
    SetLive(w.asked, s.links, s.cache, s.now, l.domain, l.slug, l);
  }

  lemma RemovedLive(w: World, c: Config, s: State, t: Tid, o: Oracle)
    requires Inv(w, c, s) && t in s.threads && s.threads[t].Removed?
    requires CopiesLive(w.asked, s.links, s.cache, Some(s.threads[t].link.id))
    ensures CopiesLive(w.asked, s.links, WriterStep(c, s, t, o).cache, None)
  {
    assert PcOk(w, s.links, s.born, s.now, s.threads[t]);
    var l := s.threads[t].link;
    FilesOwn(w.asked, HomeOf(l));
    DroppedIsSettled(w, s, c.capacity, Stale(w.mode, s), l.id, l.domain, l.slug);
  }

  lemma SettlingLive(w: World, c: Config, s: State, t: Tid, o: Oracle)
    requires Inv(w, c, s) && c.capacity == 1 && t in s.threads && Settling(s.threads[t])
    requires CopiesLive(w.asked, s.links, s.cache, StaleIn(Whole, s.links, s.threads[t]))
    ensures CopiesLive(w.asked, s.links, WriterStep(c, s, t, o).cache, None)
  {
    if s.threads[t].Tallied? {
      TalliedLive(w, c, s, t, o);
    } else if s.threads[t].Removed? {
      RemovedLive(w, c, s, t, o);
    } else {
      PublishedLive(w, c, s, t, o);
    }
  }

  lemma SettlingKeepsLive(w: World, c: Config, s: State, t: Tid, o: Oracle)
    requires Inv(w, c, s) && c.capacity == 1 && LiveOk(w.asked, s) && t in s.threads && Settling(s.threads[t])
    ensures LiveOk(w.asked, WriterStep(c, s, t, o))
  {
    assert s.writer == Some(t);
    SettlingLive(w, c, s, t, o);
    SettlingThreads(c, s, t, o);
    NobodyFound(w, c, s, t, WriterStep(c, s, t, o));
  }

  /** A row is as it was unless the cache is yet to hear of it; and what the cache had not heard of it still has
      not. */
  predicate RowHeard(s: State, s': State, id: string) {
    Stale(Whole, s') != Some(id) ==>
      && Stale(Whole, s) != Some(id)
      && (id in s.links ==> id in s'.links && s'.links[id] == s.links[id])
  }

  lemma BeginHeard(s: State, t: Tid, o: Oracle, id: string)
    requires s.writer == Some(t) && t in s.threads && s.threads[t].Locked?
    ensures RowHeard(s, Begin(s, t, s.threads[t].job, o), id)
  {
  }

  lemma CountedHeard(c: Config, s: State, t: Tid, o: Oracle, id: string)
    requires s.writer == Some(t) && t in s.threads && (s.threads[t].Counted? || s.threads[t].Leaving?)
    ensures RowHeard(s, WriterStep(c, s, t, o), id)
  {
  }

  lemma RereadHeard(c: Config, s: State, t: Tid, o: Oracle, id: string)
    requires s.writer == Some(t) && t in s.threads && s.threads[t].Reread?
    ensures RowHeard(s, WriterStep(c, s, t, o), id)
  {
  }

  lemma ChosenHeard(c: Config, s: State, t: Tid, o: Oracle, id: string)
    requires s.writer == Some(t) && t in s.threads && s.threads[t].Chosen? && s.threads[t].link.id != id
    ensures RowHeard(s, WriterStep(c, s, t, o), id)
  {
  }

  lemma RowChangeHeard(c: Config, s: State, t: Tid, o: Oracle, id: string)
    requires s.writer == Some(t) && t in s.threads && (s.threads[t].Loaded? || s.threads[t].Doomed?)
    ensures RowHeard(s, WriterStep(c, s, t, o), id)
  {
  }

  lemma SilentHeard(w: World, c: Config, s: State, t: Tid, o: Oracle, id: string)
    requires Inv(w, c, s) && t in s.threads && Silent(s.threads[t]) && id in s.born
    ensures RowHeard(s, WriterStep(c, s, t, o), id)
  {
    assert s.writer == Some(t);
    if s.threads[t].Locked? {
      BeginHeard(s, t, o, id);
    } else if s.threads[t].Reread? {
      RereadHeard(c, s, t, o, id);
    } else if s.threads[t].Chosen? {
      ChosenIsNew(w, c, s, t);
      ChosenHeard(c, s, t, o, id);
    } else if s.threads[t].Loaded? || s.threads[t].Doomed? {
      RowChangeHeard(c, s, t, o, id);
    } else {
      CountedHeard(c, s, t, o, id);
    }
  }

  lemma SilentKeepsLive(w: World, c: Config, s: State, t: Tid, o: Oracle)
    requires Inv(w, c, s) && LiveOk(w.asked, s) && t in s.threads && Silent(s.threads[t])
    ensures LiveOk(w.asked, WriterStep(c, s, t, o))
  {
    var s' := WriterStep(c, s, t, o);
    SilentWriter(c, s, t, o);
    NobodyFound(w, c, s, t, s');
    forall e | e in s'.cache && Firm(w.asked, e) && Stale(Whole, s') != Some(e.link.id)
      ensures LiveCopy(s'.links, e.link)
    {
      assert EntryOk(w, e, s.links, s.born, Stale(w.mode, s));
      SilentHeard(w, c, s, t, o, e.link.id);
    }
  }

  // ---------- everything else ----------

  /** A thread outside the locks comes, moves on or goes. */
  lemma ThreadKeepsLive(asked: iset<Address>, s: State, s': State, t: Tid)
    requires LiveOk(asked, s) && s'.cache == s.cache && s'.links == s.links && Stale(Whole, s') == Stale(Whole, s)
    requires s'.threads == s.threads - {t} || (t in s'.threads && s'.threads == s.threads[t := s'.threads[t]])
    requires t in s'.threads ==> HeldLive(asked, s.links, s'.threads[t])
    ensures LiveOk(asked, s')
  {
  }

  lemma FreeThreadIsLive(asked: iset<Address>, s: State, t: Tid, o: Oracle)
    requires LocksOk(s) && Enabled(s, Go(t, o)) && !IsReader(s.threads[t]) && !IsWriter(s.threads[t])
    ensures var s' := FreeStep(s, t, o);
            && s'.cache == s.cache && s'.links == s.links && Stale(Whole, s') == Stale(Whole, s)
            && (s'.threads == s.threads - {t} || (t in s'.threads && s'.threads == s.threads[t := s'.threads[t]]))
            && (t in s'.threads ==> HeldLive(asked, s.links, s'.threads[t]))
  {
    assert s.writer != Some(t);
  }

  lemma FreeKeepsLive(asked: iset<Address>, s: State, t: Tid, o: Oracle)
    requires LocksOk(s) && LiveOk(asked, s) && Enabled(s, Go(t, o))
    requires !IsReader(s.threads[t]) && !IsWriter(s.threads[t])
    ensures LiveOk(asked, FreeStep(s, t, o))
  {
    FreeThreadIsLive(asked, s, t, o);
    ThreadKeepsLive(asked, s, FreeStep(s, t, o), t);
  }

  lemma ArrivalKeepsLive(asked: iset<Address>, s: State, t: Tid, pc: Pc, grants: map<string, Grant>)
    requires LocksOk(s) && LiveOk(asked, s) && t !in s.threads && !IsReader(pc)
    ensures LiveOk(asked, s.(threads := s.threads[t := pc], grants := grants))
  {
    assert s.writer != Some(t);
    ThreadKeepsLive(asked, s, s.(threads := s.threads[t := pc], grants := grants), t);
  }

  lemma LiveOutside(a: Table, b: Table, l: Link)
    requires SameTable(a, b) && LiveCopy(a, l)
    ensures LiveCopy(b, l)
  {
    assert Same(a[l.id], b[l.id]);
  }

  lemma HeldOutside(asked: iset<Address>, a: Table, b: Table, pc: Pc)
    requires SameTable(a, b) && HeldLive(asked, a, pc)
    ensures HeldLive(asked, b, pc)
  {
    assert forall id :: id in a ==> Same(a[id], b[id]);
  }

  lemma OutsideKeepsLive(asked: iset<Address>, c: Config, s: State, e: Event)
    requires LiveOk(asked, s) && (e.Tick? || e.FolderDeleted? || e.OwnerAdopted?)
    ensures LiveOk(asked, Apply(c, s, e))
  {
    var s' := Apply(c, s, e);
    RowsOutsideTheLock(c, s, e);
    forall x | x in s'.cache && Firm(asked, x) && Stale(Whole, s') != Some(x.link.id)
      ensures LiveCopy(s'.links, x.link)
    {
      LiveOutside(s.links, s'.links, x.link);
    }
    forall t | t in s'.threads ensures HeldLive(asked, s'.links, s'.threads[t]) {
      HeldOutside(asked, s.links, s'.links, s.threads[t]);
    }
  }

  lemma GoKeepsLive(w: World, c: Config, s: State, t: Tid, o: Oracle)
    requires Inv(w, c, s) && c.capacity == 1 && LiveOk(w.asked, s) && Enabled(s, Go(t, o))
    ensures LiveOk(w.asked, Apply(c, s, Go(t, o)))
  {
    if IsReader(s.threads[t]) {
      ReaderKeepsLive(w, c, s, t);
    } else if !IsWriter(s.threads[t]) {
      FreeKeepsLive(w.asked, s, t, o);
    } else if Settling(s.threads[t]) {
      SettlingKeepsLive(w, c, s, t, o);
    } else {
      SilentKeepsLive(w, c, s, t, o);
    }
  }

  lemma StepKeepsLive(w: World, c: Config, s: State, e: Event)
    requires Inv(w, c, s) && c.capacity == 1 && LiveOk(w.asked, s) && Enabled(s, e)
    ensures LiveOk(w.asked, Apply(c, s, e))
  {
    if e.Go? {
      GoKeepsLive(w, c, s, e.t, e.oracle);
    } else if e.Arrive? {
      ArrivalKeepsLive(w.asked, s, e.t, e.pc, s.grants);
    } else if e.VerifyPin? {
      if Raw(s.links, e.domain, e.slug).Some? {
        var l := Raw(s.links, e.domain, e.slug).value;
        ArrivalKeepsLive(w.asked, s, e.t, Holding(l, e.slug, true), Granted(s, e.t, l, e.slug, true).grants);
      }
    } else {
      OutsideKeepsLive(w.asked, c, s, e);
    }
  }

  /** In a cache of one entry, in every run, for the addresses it asks and any others: the entry under the own key
      of a link that does not slip is as its row is now, unless a writer is about to tell the cache; and so is
      every link a lookup has found that can only find such entries. */
  lemma {:induction false} OneEntryIsLive(asked: iset<Address>, c: Config, start: int, es: seq<Event>)
    requires c.capacity == 1 && Possible(c, start, es) && Asked(es) <= asked
    ensures LiveOk(asked, After(c, start, es))
  {
    if es != [] {
      var n := |es| - 1;
      assert Asked(es[..n]) <= Asked(es);
      OneEntryIsLive(asked, c, start, es[..n]);
      AlwaysInv(World(asked, Whole), c, start, es[..n]);
      StepKeepsLive(World(asked, Whole), c, After(c, start, es[..n]), es[n]);
    }
  }
}
