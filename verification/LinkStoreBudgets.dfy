/** Click budgets through the cache: a copy that lookups find knows when its row's budget is spent, unless the
    link leaks. */
module LinkStoreBudgets {
  import opened Wrappers
  import opened Links
  import opened LinkKeys
  import opened LinkStore
  import opened LinkStoreInvariant
  import opened LinkStoreSteps
  import opened LinkStoreTheorems
  import opened LinkStoreLone
  import C = CacheModel

  // ---------- the invariant ----------

  /** The copy's budget is spent if its row's is. */
  predicate Honest(links: Table, l: Link) {
    l.id in links && links[l.id].BudgetSpent() ==> l.BudgetSpent()
  }

  /** The row a click or an update has written without having settled the cache yet. */
  function UnsettledAt(pc: Pc): Option<string> {
    match pc
    case Counted(k) => Some(k.id)
    case Reread(k, _) => Some(k.id)
    case Tallied(k, _) => Some(k.id)
    case Written(l) => Some(l.id)
    case _ => None
  }

  function Unsettled(s: State): Option<string> {
    if s.writer.Some? && s.writer.value in s.threads then UnsettledAt(s.threads[s.writer.value]) else None
  }

  /** An entry under the own key of a link that does not leak. */
  ghost predicate Settles(asked: iset<Address>, e: C.Entry) {
    e.key == OwnKey(HomeOf(e.link)) && !Leaks(asked, HomeOf(e.link))
  }

  ghost predicate CopiesHonest(asked: iset<Address>, links: Table, cache: seq<C.Entry>, unsettled: Option<string>) {
    forall e :: e in cache && Settles(asked, e) && unsettled != Some(e.link.id) ==> Honest(links, e.link)
  }

  ghost predicate InHandHonest(asked: iset<Address>, links: Table, l: Link) {
    !Leaks(asked, HomeOf(l)) ==> Honest(links, l)
  }

  ghost predicate HeldHonest(asked: iset<Address>, links: Table, pc: Pc) {
    match pc
    case Judging(_, _, l, _) => InHandHonest(asked, links, l)
    case Dropping(_, _, l, _) => InHandHonest(asked, links, l)
    case Publishing(_, _, l, _) => InHandHonest(asked, links, l)
    case Answered(_, _, answer, _) => answer.Missing? || InHandHonest(asked, links, answer.link)
    case _ => true
  }

  ghost predicate BudgetsOk(asked: iset<Address>, s: State) {
    && CopiesHonest(asked, s.links, s.cache, Unsettled(s))
    && forall t :: t in s.threads ==> HeldHonest(asked, s.links, s.threads[t])
  }

  lemma LiveIsHonest(links: Table, l: Link)
    requires LiveCopy(links, l)
    ensures Honest(links, l) && (!l.BudgetSpent() ==> !links[l.id].BudgetSpent())
  {
  }

  // ---------- the cache ----------

  lemma DeleteHonest(asked: iset<Address>, links: Table, cache: seq<C.Entry>, unsettled: Option<string>,
                     d: string, g: string)
    requires CopiesHonest(asked, links, cache, unsettled)
    ensures CopiesHonest(asked, links, C.Delete(cache, d, g), unsettled)
  {
    C.WithoutMembers(cache, FormatCacheKey(d, g));
    C.WithoutMembers(C.Without(cache, FormatCacheKey(d, g)), g);
  }

  /** Storing an honest copy; what was unsettled is settled if the row has clicks left, or if the copy is stored
      under the link's own key. */
  lemma SetHonest(asked: iset<Address>, links: Table, cache: seq<C.Entry>, capacity: nat, unsettled: Option<string>,
                  now: int, d: string, g: string, l: Link)
    requires CopiesHonest(asked, links, cache, unsettled) && Honest(links, l)
    requires unsettled.Some? ==>
      && unsettled.value == l.id
      && ((l.id in links && !links[l.id].BudgetSpent())
          || (forall e :: e in cache && e.link.id == l.id && Settles(asked, e) ==> e.key == FormatCacheKey(d, g)))
    ensures CopiesHonest(asked, links, C.Set(cache, capacity, now, d, g, l), None)
  {
    var r := C.Set(cache, capacity, now, d, g, l);
    forall e | e in r && Settles(asked, e) ensures Honest(links, e.link) {
      if e != r[0] {
        assert e in r[1..];
        SetKeepsOthers(cache, capacity, now, d, g, l, e);
      }
    }
  }

  /** The entries of one link that lookups trust all sit under its own key. */
  lemma OneSettledKey(w: World, cache: seq<C.Entry>, capacity: nat, links: Table, born: Addresses,
                      stale: Option<string>, e: C.Entry)
    requires CacheOk(w, cache, capacity, links, born, stale) && e in cache && Settles(w.asked, e)
    ensures e.link.id in born && HomeOf(e.link) == born[e.link.id] && e.key == OwnKey(born[e.link.id])
  {
    assert EntryOk(w, e, links, born, stale);
  }

  // ---------- readers ----------

  /** A lookup that finds a link which does not leak finds it under its own key. */
  lemma HitHonest(w: World, cache: seq<C.Entry>, capacity: nat, links: Table, born: Addresses, q: Address, e: C.Entry)
    requires w.mode.Standing? && CacheOk(w, cache, capacity, links, born, None) && q in w.asked
    requires e in cache && Tries(q, e.key) && CopiesHonest(w.asked, links, cache, None)
    ensures InHandHonest(w.asked, links, e.link)
  {
    assert EntryOk(w, e, links, born, None);
    if !Leaks(w.asked, HomeOf(e.link)) {
      TrustedIsFoundByKey(w, HomeOf(e.link), e.key, q);
    }
  }

  lemma LookHonest(w: World, cache: seq<C.Entry>, capacity: nat, links: Table, born: Addresses, ttl: int, now: int,
                   q: Address)
    requires w.mode.Standing? && CacheOk(w, cache, capacity, links, born, None) && q in w.asked
    requires CopiesHonest(w.asked, links, cache, None)
    ensures var r := C.Get(cache, ttl, now, q.0, q.1);
            && CopiesHonest(w.asked, links, r.list, None)
            && (r.hit.Some? ==> InHandHonest(w.asked, links, r.hit.value))
  {
    if C.HitKey(cache, q.0, q.1).Some? {
      var key := C.HitKey(cache, q.0, q.1).value;
      C.WithoutMembers(cache, key);
      HitHonest(w, cache, capacity, links, born, q, C.Find(cache, key));
    }
  }

  lemma RawHonest(asked: iset<Address>, links: Table, born: Addresses, d: string, g: string)
    requires TableOk(links, born)
    ensures Raw(links, d, g).Some? ==> InHandHonest(asked, links, Raw(links, d, g).value)
  {
    RawPrefersTheDomain(links, born, d, g);
  }

  lemma LookingHonest(w: World, c: Config, s: State, t: Tid)
    requires w.mode.Standing? && Inv(w, c, s) && t in s.threads && s.threads[t].Looking?
    requires CopiesHonest(w.asked, s.links, s.cache, None)
    ensures var s' := ReaderStep(c, s, t);
            CopiesHonest(w.asked, s.links, s'.cache, None) && HeldHonest(w.asked, s.links, s'.threads[t])
  {
    assert PcOk(w, s.links, s.born, s.now, s.threads[t]);
    assert Stale(w.mode, s) == None;
    LookHonest(w, s.cache, c.capacity, s.links, s.born, c.ttl, s.now, (s.threads[t].domain, s.threads[t].slug));
  }

  lemma PublishingHonest(w: World, c: Config, s: State, t: Tid)
    requires Inv(w, c, s) && t in s.threads && s.threads[t].Publishing?
    requires CopiesHonest(w.asked, s.links, s.cache, None) && HeldHonest(w.asked, s.links, s.threads[t])
    ensures var s' := ReaderStep(c, s, t);
            CopiesHonest(w.asked, s.links, s'.cache, None) && HeldHonest(w.asked, s.links, s'.threads[t])
  {
    assert PcOk(w, s.links, s.born, s.now, s.threads[t]);
    var l := s.threads[t].link;
    LiveIsHonest(s.links, l);
    SetHonest(w.asked, s.links, s.cache, c.capacity, None, s.now, l.domain, l.slug, l);
  }

  lemma CacheReaderHonest(w: World, c: Config, s: State, t: Tid)
    requires w.mode.Standing? && Inv(w, c, s) && t in s.threads
    requires s.threads[t].Looking? || s.threads[t].Dropping? || s.threads[t].Publishing?
    requires CopiesHonest(w.asked, s.links, s.cache, None) && HeldHonest(w.asked, s.links, s.threads[t])
    ensures var s' := ReaderStep(c, s, t);
            CopiesHonest(w.asked, s.links, s'.cache, None) && HeldHonest(w.asked, s.links, s'.threads[t])
  {
    if s.threads[t].Looking? {
      LookingHonest(w, c, s, t);
    } else if s.threads[t].Dropping? {
      DeleteHonest(w.asked, s.links, s.cache, None, s.threads[t].domain, s.threads[t].slug);
    } else {
      PublishingHonest(w, c, s, t);
    }
  }

  lemma TableReaderHonest(w: World, c: Config, s: State, t: Tid)
    requires Inv(w, c, s) && t in s.threads && HeldHonest(w.asked, s.links, s.threads[t])
    requires s.threads[t].Judging? || s.threads[t].Reading? || s.threads[t].ReadingRoot?
    ensures var s' := ReaderStep(c, s, t); s'.cache == s.cache && HeldHonest(w.asked, s.links, s'.threads[t])
  {
    RawHonest(w.asked, s.links, s.born, s.threads[t].domain, s.threads[t].slug);
    RawHonest(w.asked, s.links, s.born, "", s.threads[t].slug);
  }

  lemma ReaderHonest(w: World, c: Config, s: State, t: Tid)
    requires w.mode.Standing? && Inv(w, c, s) && t in s.threads && IsReader(s.threads[t])
    requires CopiesHonest(w.asked, s.links, s.cache, None) && HeldHonest(w.asked, s.links, s.threads[t])
    ensures var s' := ReaderStep(c, s, t);
            CopiesHonest(w.asked, s.links, s'.cache, None)
            && (t in s'.threads ==> HeldHonest(w.asked, s.links, s'.threads[t]))
  {
    if s.threads[t].Looking? || s.threads[t].Dropping? || s.threads[t].Publishing? {
      CacheReaderHonest(w, c, s, t);
    } else if !s.threads[t].Answered? {
      TableReaderHonest(w, c, s, t);
    }
  }

  lemma ReaderKeepsBudgets(w: World, c: Config, s: State, t: Tid)
    requires w.mode.Standing? && Inv(w, c, s) && BudgetsOk(w.asked, s) && t in s.threads && IsReader(s.threads[t])
    ensures BudgetsOk(w.asked, ReaderStep(c, s, t))
  {
    OthersUnderRead(c, s, t);
    ReaderHonest(w, c, s, t);
  }

  // ---------- writers ----------

  lemma NobodyInHand(w: World, c: Config, s: State, t: Tid, s': State)
    requires Inv(w, c, s) && t in s.threads && IsWriter(s.threads[t])
    requires t in s'.threads ==> !IsReader(s'.threads[t])
    requires s'.threads.Keys <= s.threads.Keys
    requires forall u :: u in s'.threads && u != t ==> s'.threads[u] == s.threads[u]
    ensures forall u :: u in s'.threads ==> HeldHonest(w.asked, s'.links, s'.threads[u])
  {
    forall u | u in s'.threads ensures HeldHonest(w.asked, s'.links, s'.threads[u]) {
      if u != t {
        OthersAreFree(w, c, s, t, u);
      }
    }
  }

  /** A click that spends the budget drops the link's own entry. */
  lemma SpentIsDropped(w: World, c: Config, s: State, k: Click, l: Link)
    requires Inv(w, c, s) && RereadOk(w, s.links, s.born, k, l)
    requires CopiesHonest(w.asked, s.links, s.cache, Some(k.id))
    ensures CopiesHonest(w.asked, s.links, C.Delete(s.cache, k.domain, k.slug), None)
  {
    DeleteHonest(w.asked, s.links, s.cache, Some(k.id), k.domain, k.slug);
    C.WithoutMembers(s.cache, FormatCacheKey(k.domain, k.slug));
    C.WithoutMembers(C.Without(s.cache, FormatCacheKey(k.domain, k.slug)), k.slug);
    forall e | e in C.Delete(s.cache, k.domain, k.slug) && Settles(w.asked, e) ensures e.link.id != k.id {
      OneSettledKey(w, s.cache, c.capacity, s.links, s.born, Stale(w.mode, s), e);
      if e.link.id == k.id {
        UnleakedDropsOwnKey(w.asked, HomeOf(e.link), k.slug);
      }
    }
  }

  lemma TalliedHonest(w: World, c: Config, s: State, t: Tid, o: Oracle)
    requires Inv(w, c, s) && t in s.threads && s.threads[t].Tallied?
    requires CopiesHonest(w.asked, s.links, s.cache, Some(s.threads[t].click.id))
    ensures CopiesHonest(w.asked, s.links, WriterStep(c, s, t, o).cache, None)
  {
    assert PcOk(w, s.links, s.born, s.now, s.threads[t]);
    var Tallied(k, l) := s.threads[t];
    if l.IsExpired(s.now) {
      SpentIsDropped(w, c, s, k, l);
    } else {
      LiveIsHonest(s.links, l);
      SetHonest(w.asked, s.links, s.cache, c.capacity, Some(k.id), s.now, k.domain, k.slug, l);
    }
  }

  lemma WrittenHonest(w: World, c: Config, s: State, t: Tid, o: Oracle)
    requires Inv(w, c, s) && t in s.threads && s.threads[t].Written?
    requires CopiesHonest(w.asked, s.links, s.cache, Some(s.threads[t].link.id))
    ensures CopiesHonest(w.asked, s.links, WriterStep(c, s, t, o).cache, None)
  {
    assert PcOk(w, s.links, s.born, s.now, s.threads[t]);
    var l := s.threads[t].link;
    LiveIsHonest(s.links, l);
    forall e | e in s.cache && e.link.id == l.id && Settles(w.asked, e)
      ensures e.key == FormatCacheKey(l.domain, l.slug)
    {
      OneSettledKey(w, s.cache, c.capacity, s.links, s.born, Stale(w.mode, s), e);
    }
    SetHonest(w.asked, s.links, s.cache, c.capacity, Some(l.id), s.now, l.domain, l.slug, l);
  }

  lemma InsertedHonest(w: World, c: Config, s: State, t: Tid, o: Oracle)
    requires Inv(w, c, s) && t in s.threads && s.threads[t].Inserted?
    requires CopiesHonest(w.asked, s.links, s.cache, None)
    ensures CopiesHonest(w.asked, s.links, WriterStep(c, s, t, o).cache, None)
  {
    assert PcOk(w, s.links, s.born, s.now, s.threads[t]);
    var l := s.threads[t].link;
    LiveIsHonest(s.links, l);
    SetHonest(w.asked, s.links, s.cache, c.capacity, None, s.now, l.domain, l.slug, l);
  }

  /** The last cache operation of a writer, after which nothing is unsettled. */
  predicate Settling(pc: Pc) {
    pc.Tallied? || pc.Inserted? || pc.Written? || pc.Removed?
  }

  lemma TalliedThreads(c: Config, s: State, t: Tid, o: Oracle)
    requires t in s.threads && s.threads[t].Tallied?
    ensures var s' := WriterStep(c, s, t, o);
            s'.links == s.links && s'.writer == s.writer && s'.threads == s.threads[t := Leaving]
  {
  }

  lemma SettlingThreads(c: Config, s: State, t: Tid, o: Oracle)
    requires t in s.threads && Settling(s.threads[t])
    ensures var s' := WriterStep(c, s, t, o);
            s'.links == s.links && s'.writer == s.writer && s'.threads == s.threads[t := Leaving]
  {
    if s.threads[t].Tallied? {
      TalliedThreads(c, s, t, o);
    }
  }

  lemma RemovedHonest(asked: iset<Address>, c: Config, s: State, t: Tid, o: Oracle)
    requires t in s.threads && s.threads[t].Removed? && CopiesHonest(asked, s.links, s.cache, None)
    ensures CopiesHonest(asked, s.links, WriterStep(c, s, t, o).cache, None)
  {
    DeleteHonest(asked, s.links, s.cache, None, s.threads[t].link.domain, s.threads[t].link.slug);
  }

  lemma SettlingHonest(w: World, c: Config, s: State, t: Tid, o: Oracle)
    requires Inv(w, c, s) && t in s.threads && Settling(s.threads[t])
    requires CopiesHonest(w.asked, s.links, s.cache, UnsettledAt(s.threads[t]))
    ensures CopiesHonest(w.asked, s.links, WriterStep(c, s, t, o).cache, None)
  {
    if s.threads[t].Tallied? {
      TalliedHonest(w, c, s, t, o);
    } else if s.threads[t].Written? {
      WrittenHonest(w, c, s, t, o);
    } else if s.threads[t].Inserted? {
      InsertedHonest(w, c, s, t, o);
    } else {
      RemovedHonest(w.asked, c, s, t, o);
    }
  }

  lemma SettlingKeepsBudgets(w: World, c: Config, s: State, t: Tid, o: Oracle)
    requires Inv(w, c, s) && BudgetsOk(w.asked, s) && t in s.threads && Settling(s.threads[t])
    ensures BudgetsOk(w.asked, WriterStep(c, s, t, o))
  {
    assert s.writer == Some(t);
    SettlingHonest(w, c, s, t, o);
    SettlingThreads(c, s, t, o);
    NobodyInHand(w, c, s, t, WriterStep(c, s, t, o));
  }

  /** A row is as it was unless it is left unsettled; and what was unsettled stays so or is gone. */
  predicate RowSettled(s: State, s': State, id: string) {
    Unsettled(s') != Some(id) && id in s'.links ==>
      id in s.links && s'.links[id] == s.links[id] && Unsettled(s) != Some(id)
  }

  lemma BeginSettles(s: State, t: Tid, o: Oracle, id: string)
    requires s.writer == Some(t) && t in s.threads && s.threads[t].Locked?
    ensures RowSettled(s, Begin(s, t, s.threads[t].job, o), id)
  {
  }

  lemma CountedSettles(c: Config, s: State, t: Tid, o: Oracle, id: string)
    requires s.writer == Some(t) && t in s.threads && (s.threads[t].Counted? || s.threads[t].Leaving?)
    ensures RowSettled(s, WriterStep(c, s, t, o), id)
  {
  }

  lemma RereadSettles(c: Config, s: State, t: Tid, o: Oracle, id: string)
    requires s.writer == Some(t) && t in s.threads && s.threads[t].Reread?
    ensures RowSettled(s, WriterStep(c, s, t, o), id)
  {
  }

  lemma ChosenSettles(c: Config, s: State, t: Tid, o: Oracle, id: string)
    requires s.writer == Some(t) && t in s.threads && s.threads[t].Chosen? && s.threads[t].link.id != id
    ensures RowSettled(s, WriterStep(c, s, t, o), id)
  {
  }

  lemma RowChangeSettles(c: Config, s: State, t: Tid, o: Oracle, id: string)
    requires s.writer == Some(t) && t in s.threads && (s.threads[t].Loaded? || s.threads[t].Doomed?)
    ensures RowSettled(s, WriterStep(c, s, t, o), id)
  {
  }

  lemma SilentSettles(w: World, c: Config, s: State, t: Tid, o: Oracle, id: string)
    requires Inv(w, c, s) && t in s.threads && Silent(s.threads[t]) && id in s.born
    ensures RowSettled(s, WriterStep(c, s, t, o), id)
  {
    assert s.writer == Some(t);
    if s.threads[t].Locked? {
      BeginSettles(s, t, o, id);
    } else if s.threads[t].Reread? {
      RereadSettles(c, s, t, o, id);
    } else if s.threads[t].Chosen? {
      ChosenIsNew(w, c, s, t);
      ChosenSettles(c, s, t, o, id);
    } else if s.threads[t].Loaded? || s.threads[t].Doomed? {
      RowChangeSettles(c, s, t, o, id);
    } else {
      CountedSettles(c, s, t, o, id);
    }
  }

  lemma SilentKeepsBudgets(w: World, c: Config, s: State, t: Tid, o: Oracle)
    requires Inv(w, c, s) && BudgetsOk(w.asked, s) && t in s.threads && Silent(s.threads[t])
    ensures BudgetsOk(w.asked, WriterStep(c, s, t, o))
  {
    var s' := WriterStep(c, s, t, o);
    SilentWriter(c, s, t, o);
    NobodyInHand(w, c, s, t, s');
    forall e | e in s'.cache && Settles(w.asked, e) && Unsettled(s') != Some(e.link.id)
      ensures Honest(s'.links, e.link)
    {
      OneSettledKey(w, s.cache, c.capacity, s.links, s.born, Stale(w.mode, s), e);
      SilentSettles(w, c, s, t, o, e.link.id);
    }
  }

  // ---------- everything else ----------

  /** A thread outside the locks comes, moves on or goes. */
  lemma ThreadKeepsBudgets(asked: iset<Address>, s: State, s': State, t: Tid)
    requires BudgetsOk(asked, s) && s'.cache == s.cache && s'.links == s.links && Unsettled(s') == Unsettled(s)
    requires s'.threads == s.threads - {t} || (t in s'.threads && s'.threads == s.threads[t := s'.threads[t]])
    requires t in s'.threads ==> HeldHonest(asked, s.links, s'.threads[t])
    ensures BudgetsOk(asked, s')
  {
  }

  lemma FreeThreadIsQuiet(asked: iset<Address>, s: State, t: Tid, o: Oracle)
    requires LocksOk(s) && Enabled(s, Go(t, o)) && !IsReader(s.threads[t]) && !IsWriter(s.threads[t])
    ensures var s' := FreeStep(s, t, o);
            && s'.cache == s.cache && s'.links == s.links && Unsettled(s') == Unsettled(s)
            && (s'.threads == s.threads - {t} || (t in s'.threads && s'.threads == s.threads[t := s'.threads[t]]))
            && (t in s'.threads ==> HeldHonest(asked, s.links, s'.threads[t]))
  {
    assert s.writer != Some(t);
  }

  lemma FreeKeepsBudgets(asked: iset<Address>, s: State, t: Tid, o: Oracle)
    requires LocksOk(s) && BudgetsOk(asked, s) && Enabled(s, Go(t, o))
    requires !IsReader(s.threads[t]) && !IsWriter(s.threads[t])
    ensures BudgetsOk(asked, FreeStep(s, t, o))
  {
    FreeThreadIsQuiet(asked, s, t, o);
    ThreadKeepsBudgets(asked, s, FreeStep(s, t, o), t);
  }

  lemma ArrivalKeepsBudgets(asked: iset<Address>, s: State, t: Tid, pc: Pc)
    requires LocksOk(s) && BudgetsOk(asked, s) && t !in s.threads && !IsReader(pc)
    ensures BudgetsOk(asked, s.(threads := s.threads[t := pc]))
  {
    assert s.writer != Some(t);
    ThreadKeepsBudgets(asked, s, s.(threads := s.threads[t := pc]), t);
  }

  lemma GrantKeepsBudgets(asked: iset<Address>, s: State, t: Tid, l: Link, g: string)
    requires LocksOk(s) && BudgetsOk(asked, s) && t !in s.threads
    ensures BudgetsOk(asked, Granted(s, t, l, g, true))
  {
    assert s.writer != Some(t);
    ThreadKeepsBudgets(asked, s, Granted(s, t, l, g, true), t);
  }

  lemma SameTableKeepsHonest(a: Table, b: Table, l: Link)
    requires SameTable(a, b) && Honest(a, l)
    ensures Honest(b, l)
  {
    assert l.id in a ==> Same(a[l.id], b[l.id]);
  }

  lemma OutsideKeepsBudgets(asked: iset<Address>, c: Config, s: State, e: Event)
    requires BudgetsOk(asked, s) && (e.Tick? || e.FolderDeleted? || e.OwnerAdopted?)
    ensures BudgetsOk(asked, Apply(c, s, e))
  {
    var s' := Apply(c, s, e);
    RowsOutsideTheLock(c, s, e);
    forall x | x in s'.cache && Settles(asked, x) && Unsettled(s') != Some(x.link.id) ensures Honest(s'.links, x.link) {
      SameTableKeepsHonest(s.links, s'.links, x.link);
    }
    forall t | t in s'.threads ensures HeldHonest(asked, s'.links, s'.threads[t]) {
      HeldSurvives(asked, s.links, s'.links, s.threads[t]);
    }
  }

  lemma HeldSurvives(asked: iset<Address>, a: Table, b: Table, pc: Pc)
    requires SameTable(a, b) && HeldHonest(asked, a, pc)
    ensures HeldHonest(asked, b, pc)
  {
    assert forall id :: id in a ==> Same(a[id], b[id]);
  }

  lemma GoKeepsBudgets(w: World, c: Config, s: State, t: Tid, o: Oracle)
    requires w.mode.Standing? && Inv(w, c, s) && BudgetsOk(w.asked, s) && Enabled(s, Go(t, o))
    ensures BudgetsOk(w.asked, Apply(c, s, Go(t, o)))
  {
    if IsReader(s.threads[t]) {
      ReaderKeepsBudgets(w, c, s, t);
    } else if !IsWriter(s.threads[t]) {
      FreeKeepsBudgets(w.asked, s, t, o);
    } else if Settling(s.threads[t]) {
      SettlingKeepsBudgets(w, c, s, t, o);
    } else {
      SilentKeepsBudgets(w, c, s, t, o);
    }
  }

  lemma StepKeepsBudgets(w: World, c: Config, s: State, e: Event)
    requires w.mode.Standing? && Inv(w, c, s) && BudgetsOk(w.asked, s) && Enabled(s, e)
    ensures BudgetsOk(w.asked, Apply(c, s, e))
  {
    if e.Go? {
      GoKeepsBudgets(w, c, s, e.t, e.oracle);
    } else if e.Arrive? {
      ArrivalKeepsBudgets(w.asked, s, e.t, e.pc);
    } else if e.VerifyPin? {
      if Raw(s.links, e.domain, e.slug).Some? {
        GrantKeepsBudgets(w.asked, s, e.t, Raw(s.links, e.domain, e.slug).value, e.slug);
      }
    } else {
      OutsideKeepsBudgets(w.asked, c, s, e);
    }
  }

  /** In every run, for the addresses it asks and any others: of a link that does not leak, the entry under its
      own key and the copies in readers' hands are spent when the row is, unless a click or an update of that
      link is about to settle the cache. */
  lemma {:induction false} SpentIsKnown(asked: iset<Address>, c: Config, start: int, es: seq<Event>)
    requires Possible(c, start, es) && Asked(es) <= asked
    ensures BudgetsOk(asked, After(c, start, es))
  {
    if es != [] {
      var n := |es| - 1;
      assert Asked(es[..n]) <= Asked(es);
      SpentIsKnown(asked, c, start, es[..n]);
      AlwaysInv(World(asked, Standing), c, start, es[..n]);
      StepKeepsBudgets(World(asked, Standing), c, After(c, start, es[..n]), es[n]);
    }
  }
}
