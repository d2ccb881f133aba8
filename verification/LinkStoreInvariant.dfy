/** What holds in every state of the link service, however its goroutines interleave and whatever is asked. */
module LinkStoreInvariant {
  import opened Wrappers
  import opened Links
  import opened LinkKeys
  import opened LinkStore
  import C = CacheModel

  type Table = map<string, Link>
  type Addresses = map<string, Address>

  /** How much of its row a copy is held to: all of it, or all but what clicks write. */
  datatype Mode = Whole | Standing

  /** What the invariant is about: the addresses that may be looked up, and how copies are held to rows. */
  datatype World = World(asked: iset<Address>, mode: Mode)

  // ---------- locks and rows ----------

  ghost predicate LocksOk(s: State) {
    && (forall t :: t in s.threads ==> (IsReader(s.threads[t]) <==> t in s.readers))
    && (forall t :: t in s.threads ==> (IsWriter(s.threads[t]) <==> s.writer == Some(t)))
    && (forall t :: t in s.readers ==> t in s.threads)
    && (s.writer.Some? ==> s.writer.value in s.threads && s.readers == {})
  }

  function HomeOf(l: Link): Address {
    (l.domain, l.slug)
  }

  /** The link was created, at the address it says. */
  ghost predicate Known(born: Addresses, l: Link) {
    l.id in born && born[l.id] == HomeOf(l) && Stored(HomeOf(l))
  }

  ghost predicate TableOk(links: Table, born: Addresses) {
    && (forall id :: id in links ==> links[id].id == id && Known(born, links[id]))
    && (forall i, j :: i in links && j in links && At(links[i], links[j].domain, links[j].slug) ==> i == j)
  }

  /** Addresses are given once and for all. */
  predicate Grows(born: Addresses, born': Addresses) {
    forall j :: j in born ==> j in born' && born'[j] == born[j]
  }

  // ---------- copies of rows ----------

  /** A link value that equals its row now, but for the two columns written outside the lock. */
  predicate LiveCopy(links: Table, l: Link) {
    l.id in links && Same(l, links[l.id])
  }

  /** Equal but for what clicks and the two writers outside the lock may write. */
  predicate SameButClicks(a: Link, b: Link) {
    Same(a.(clickCount := b.clickCount, lastClickedAt := b.lastClickedAt, variants := b.variants), b)
  }

  predicate Fits(mode: Mode, links: Table, l: Link) {
    match mode
    case Whole => LiveCopy(links, l)
    case Standing => l.id in links && SameButClicks(l, links[l.id])
  }

  /** Each cache entry sits under the key of, and copies, a row now in the table. */
  predicate Coherent(cache: seq<C.Entry>, links: Table) {
    forall i :: 0 <= i < |cache| ==> cache[i].key == OwnKey(HomeOf(cache[i].link)) && LiveCopy(links, cache[i].link)
  }

  /** Lookups of this world never find the link at a but by its own key, or never even try another for it. */
  ghost predicate Trusted(w: World, a: Address) {
    match w.mode
    case Whole => !Mistaken(w.asked, a)
    case Standing => !Strays(w.asked, a)
  }

  /** A cache entry sits under a key its link may sit under; its own key's entry copies the row unless a writer
      is just about to refresh it. */
  ghost predicate EntryOk(w: World, e: C.Entry, links: Table, born: Addresses, stale: Option<string>) {
    && Known(born, e.link)
    && Files(w.asked, HomeOf(e.link), e.key)
    && (Trusted(w, HomeOf(e.link)) && e.key == OwnKey(HomeOf(e.link)) && stale != Some(e.link.id) ==>
          Fits(w.mode, links, e.link))
  }

  ghost predicate CacheOk(w: World, cache: seq<C.Entry>, capacity: nat, links: Table, born: Addresses,
                          stale: Option<string>) {
    C.WellFormed(cache, capacity) && forall e :: e in cache ==> EntryOk(w, e, links, born, stale)
  }

  /** The row a lock holder has changed or deleted without having told the cache yet. */
  function StaleIn(mode: Mode, links: Table, pc: Pc): Option<string> {
    match pc
    case Counted(k) => if mode.Whole? && k.id in links then Some(k.id) else None
    case Reread(k, _) => if mode.Whole? then Some(k.id) else None
    case Tallied(k, _) => if mode.Whole? then Some(k.id) else None
    case Written(l) => Some(l.id)
    case Removed(l) => Some(l.id)
    case _ => None
  }

  function Stale(mode: Mode, s: State): Option<string> {
    if s.writer.Some? && s.writer.value in s.threads then StaleIn(mode, s.links, s.threads[s.writer.value]) else None
  }

  // ---------- what goroutines hold ----------

  /** The lookup may have found this link, under some key it tries. */
  ghost predicate Reached(asked: iset<Address>, q: Address, a: Address) {
    q in asked && exists key :: Files(asked, a, key) && Tries(q, key)
  }

  ghost predicate HeldOk(w: World, links: Table, born: Addresses, q: Address, l: Link) {
    Known(born, l) && Reached(w.asked, q, HomeOf(l)) && (Trusted(w, HomeOf(l)) ==> Fits(w.mode, links, l))
  }

  ghost predicate AnswerOk(w: World, links: Table, born: Addresses, q: Address, answer: Answer, at: int) {
    match answer
    case Found(l) => HeldOk(w, links, born, q, l) && !l.IsExpired(at)
    case Ended(l) => HeldOk(w, links, born, q, l) && l.IsExpired(at)
    case Missing => !Exists(links, q.0, q.1) && !Exists(links, "", q.1)
  }

  ghost predicate ReaderOk(w: World, links: Table, born: Addresses, now: int, pc: Pc)
    requires IsReader(pc)
  {
    match pc
    case Looking(d, g) => (d, g) in w.asked
    case Judging(d, g, l, cached) => HeldOk(w, links, born, (d, g), l) && (!cached ==> LiveCopy(links, l))
    case Dropping(d, g, l, at) => AnswerOk(w, links, born, (d, g), Ended(l), at) && at <= now
    case Reading(d, g) => (d, g) in w.asked
    case ReadingRoot(d, g) => (d, g) in w.asked && !Exists(links, d, g) && !Exists(links, "", g)
    case Publishing(d, g, l, at) => AnswerOk(w, links, born, (d, g), Found(l), at) && LiveCopy(links, l) && at <= now
    case Answered(d, g, answer, at) => AnswerOk(w, links, born, (d, g), answer, at) && at <= now
  }

  /** A click names a link that was created, its domain, and a slug the link may come to be filed under. */
  ghost predicate ClickOk(w: World, born: Addresses, k: Click) {
    && k.id in born && k.domain == born[k.id].0 && Stored(born[k.id])
    && Files(w.asked, born[k.id], FormatCacheKey(k.domain, k.slug))
  }

  ghost predicate JobOk(w: World, born: Addresses, job: Job) {
    match job
    case ClickJob(k) => ClickOk(w, born, k)
    case CreateJob(r) => Normal(r.domain)
    case UpdateJob(_, _, _, _) => true
    case DeleteJob(_, _, _) => true
  }

  ghost predicate RereadOk(w: World, links: Table, born: Addresses, k: Click, l: Link) {
    ClickOk(w, born, k) && l.id == k.id && Known(born, l) && LiveCopy(links, l)
  }

  ghost predicate WriterOk(w: World, links: Table, born: Addresses, pc: Pc)
    requires IsWriter(pc)
  {
    match pc
    case Locked(job) => JobOk(w, born, job)
    case Counted(k) => ClickOk(w, born, k)
    case Reread(k, l) => RereadOk(w, links, born, k, l)
    case Tallied(k, l) => RereadOk(w, links, born, k, l)
    case Chosen(l) => Stored(HomeOf(l)) && l.id !in born && l.clickCount == 0
    case Inserted(l) => Known(born, l) && LiveCopy(links, l)
    case Loaded(l, e) =>
      && l.id in links && Same(WriteColumns(links[l.id], l), l)
      && l.isActive == (if e.isActive.Some? then e.isActive.value else links[l.id].isActive)
    case Written(l) => Known(born, l) && LiveCopy(links, l)
    case Doomed(l) => l.id in links && At(links[l.id], l.domain, l.slug)
    case Removed(l) => l.id !in links && Known(born, l)
    case Leaving => true
  }

  ghost predicate FreeOk(w: World, born: Addresses, pc: Pc)
    requires !IsReader(pc) && !IsWriter(pc)
  {
    match pc
    case Asking(d, g) => (d, g) in w.asked
    case Waiting(job) => JobOk(w, born, job)
    case Holding(l, g, _) => Known(born, l) && Files(w.asked, HomeOf(l), FormatCacheKey(l.domain, g))
  }

  ghost predicate PcOk(w: World, links: Table, born: Addresses, now: int, pc: Pc) {
    if IsReader(pc) then ReaderOk(w, links, born, now, pc)
    else if IsWriter(pc) then WriterOk(w, links, born, pc)
    else FreeOk(w, born, pc)
  }

  ghost predicate Inv(w: World, c: Config, s: State) {
    && LocksOk(s)
    && TableOk(s.links, s.born)
    && CacheOk(w, s.cache, c.capacity, s.links, s.born, Stale(w.mode, s))
    && forall t :: t in s.threads ==> PcOk(w, s.links, s.born, s.now, s.threads[t])
  }

  // ---------- trust ----------

  lemma TrustedIsFoundByKey(w: World, a: Address, key: string, q: Address)
    requires Trusted(w, a) && Files(w.asked, a, key) && q in w.asked && Tries(q, key)
    ensures key == OwnKey(a)
  {
    var path :| Leads(w.asked, a, path) && KeyAfter(a, path) == key;
    if w.mode.Whole? {
      UnmistakenKeepsKey(w.asked, a, path);
    } else {
      UnstrayedIsFoundByKey(w.asked, a, path, q);
    }
  }

  lemma WholeTrustKeepsKey(w: World, a: Address, key: string)
    requires w.mode.Whole? && Trusted(w, a) && Files(w.asked, a, key)
    ensures key == OwnKey(a)
  {
    var path :| Leads(w.asked, a, path) && KeyAfter(a, path) == key;
    UnmistakenKeepsKey(w.asked, a, path);
  }

  lemma LiveFits(mode: Mode, links: Table, l: Link)
    requires LiveCopy(links, l)
    ensures Fits(mode, links, l)
  {
  }

  // ---------- the cache under its three operations ----------

  lemma GetKeepsCacheOk(w: World, cache: seq<C.Entry>, capacity: nat, links: Table, born: Addresses, ttl: int,
                        now: int, q: Address)
    requires CacheOk(w, cache, capacity, links, born, None) && q in w.asked
    ensures var r := C.Get(cache, ttl, now, q.0, q.1);
            CacheOk(w, r.list, capacity, links, born, None) && (r.hit.Some? ==> HeldOk(w, links, born, q, r.hit.value))
  {
    C.GetKeepsShape(cache, capacity, ttl, now, q.0, q.1);
    if C.HitKey(cache, q.0, q.1).Some? {
      var k := C.HitKey(cache, q.0, q.1).value;
      C.WithoutMembers(cache, k);
      var e := C.Find(cache, k);
      assert EntryOk(w, e, links, born, None);
      if Trusted(w, HomeOf(e.link)) {
        TrustedIsFoundByKey(w, HomeOf(e.link), k, q);
      }
    }
  }

  /** Storing a copy under one of its link's keys; the row a writer has changed is stored under the key where
      a trusted link's copy may still be stale. */
  lemma SetKeepsCacheOk(w: World, cache: seq<C.Entry>, capacity: nat, links: Table, born: Addresses,
                        stale: Option<string>, now: int, d: string, g: string, l: Link)
    requires CacheOk(w, cache, capacity, links, born, stale) && capacity > 0
    requires Known(born, l) && LiveCopy(links, l) && Files(w.asked, HomeOf(l), FormatCacheKey(d, g))
    requires stale.None? || (stale == Some(l.id)
            && (Trusted(w, HomeOf(l)) ==> FormatCacheKey(d, g) == OwnKey(HomeOf(l))))
    ensures CacheOk(w, C.Set(cache, capacity, now, d, g, l), capacity, links, born, None)
  {
    var key := FormatCacheKey(d, g);
    LiveFits(w.mode, links, l);
    C.SetKeepsShape(cache, capacity, now, d, g, l);
    var r := C.Set(cache, capacity, now, d, g, l);
    forall e | e in r[1..] ensures EntryOk(w, e, links, born, None) {
      SetKeepsOthers(cache, capacity, now, d, g, l, e);
      assert EntryOk(w, e, links, born, stale);
    }
    assert r == [r[0]] + r[1..];
  }

  lemma SetKeepsOthers(cache: seq<C.Entry>, capacity: nat, now: int, d: string, g: string, l: Link, e: C.Entry)
    requires e in C.Set(cache, capacity, now, d, g, l)[1..]
    ensures e in cache && e.key != FormatCacheKey(d, g)
  {
    C.WithoutMembers(cache, FormatCacheKey(d, g));
    C.HasIsMembership(cache, FormatCacheKey(d, g));
  }

  /** Deleting two keys; among them the one where a trusted link's copy may be stale. */
  lemma DeleteKeepsCacheOk(w: World, cache: seq<C.Entry>, capacity: nat, links: Table, born: Addresses,
                           stale: Option<string>, d: string, g: string)
    requires CacheOk(w, cache, capacity, links, born, stale)
    requires stale.Some? ==> stale.value in born
    requires stale.Some? && Trusted(w, born[stale.value]) ==> FormatCacheKey(d, g) == OwnKey(born[stale.value])
    ensures CacheOk(w, C.Delete(cache, d, g), capacity, links, born, None)
  {
    C.DeleteKeepsShape(cache, capacity, d, g);
    C.WithoutMembers(cache, FormatCacheKey(d, g));
    C.WithoutMembers(C.Without(cache, FormatCacheKey(d, g)), g);
    forall e | e in C.Delete(cache, d, g) ensures EntryOk(w, e, links, born, None) {
      assert EntryOk(w, e, links, born, stale);
    }
  }

  /** A change to one row leaves every entry of the other rows as it was. */
  lemma RowChangeKeepsCacheOk(w: World, cache: seq<C.Entry>, capacity: nat, links: Table, links': Table,
                              born: Addresses, born': Addresses, stale: Option<string>, id: string)
    requires CacheOk(w, cache, capacity, links, born, stale)
    requires forall j :: j in links && j != id ==> j in links' && links'[j] == links[j]
    requires Grows(born, born')
    requires stale.None? || stale == Some(id)
    ensures CacheOk(w, cache, capacity, links', born', Some(id))
  {
    forall e | e in cache ensures EntryOk(w, e, links', born', Some(id)) {
      assert EntryOk(w, e, links, born, stale);
    }
  }

  /** The same row but for what clicks write. */
  predicate Clicked(row: Link, row': Link) {
    row' == row.(clickCount := row'.clickCount, lastClickedAt := row'.lastClickedAt, variants := row'.variants)
  }

  /** A click to one row: stale where whole copies are asked for, and unnoticed where clicks do not matter. */
  lemma ClickKeepsCacheOk(w: World, cache: seq<C.Entry>, capacity: nat, links: Table, born: Addresses,
                          stale: Option<string>, row': Link)
    requires CacheOk(w, cache, capacity, links, born, stale) && row'.id in links && Clicked(links[row'.id], row')
    requires stale.None? || (stale == Some(row'.id) && w.mode.Whole?)
    ensures CacheOk(w, cache, capacity, links[row'.id := row'], born, if w.mode.Whole? then Some(row'.id) else None)
  {
    var links' := links[row'.id := row'];
    if w.mode.Whole? {
      RowChangeKeepsCacheOk(w, cache, capacity, links, links', born, born, stale, row'.id);
    } else {
      forall e | e in cache ensures EntryOk(w, e, links', born, None) {
        assert EntryOk(w, e, links, born, None);
        ClickKeepsStanding(links, row', e.link);
      }
    }
  }

  lemma ClickKeepsStanding(links: Table, row': Link, l: Link)
    requires row'.id in links && Clicked(links[row'.id], row')
    ensures Fits(Standing, links, l) ==> Fits(Standing, links[row'.id := row'], l)
  {
  }

  // ---------- who is affected by a step ----------

  /** A reader changes only the cache and its own program counter. */
  lemma ReaderFrame(w: World, c: Config, s: State, t: Tid, cache: seq<C.Entry>, pc: Pc)
    requires Inv(w, c, s) && t in s.threads && IsReader(s.threads[t])
    requires IsReader(pc) && ReaderOk(w, s.links, s.born, s.now, pc)
    requires CacheOk(w, cache, c.capacity, s.links, s.born, None)
    ensures Inv(w, c, s.(cache := cache, threads := s.threads[t := pc]))
  {
    assert s.writer.None?;
  }

  /** While a writer runs, every other thread is outside both locks. */
  lemma OthersAreFree(w: World, c: Config, s: State, t: Tid, u: Tid)
    requires Inv(w, c, s) && t in s.threads && IsWriter(s.threads[t]) && u in s.threads && u != t
    ensures !IsReader(s.threads[u]) && !IsWriter(s.threads[u]) && FreeOk(w, s.born, s.threads[u])
  {
    assert PcOk(w, s.links, s.born, s.now, s.threads[u]);
  }

  lemma FreeOkGrows(w: World, born: Addresses, born': Addresses, pc: Pc)
    requires !IsReader(pc) && !IsWriter(pc) && FreeOk(w, born, pc) && Grows(born, born')
    ensures FreeOk(w, born', pc)
  {
  }

  lemma WriterFrameLocks(s: State, t: Tid, pc: Pc)
    requires LocksOk(s) && t in s.threads && IsWriter(s.threads[t]) && IsWriter(pc)
    ensures LocksOk(s.(threads := s.threads[t := pc]))
  {
  }

  /** A writer may change table and cache; the others, all outside the locks, do not notice. */
  lemma WriterFrame(w: World, c: Config, s: State, t: Tid, links: Table, born: Addresses, cache: seq<C.Entry>, pc: Pc)
    requires Inv(w, c, s) && t in s.threads && IsWriter(s.threads[t])
    requires IsWriter(pc) && WriterOk(w, links, born, pc)
    requires TableOk(links, born) && Grows(s.born, born)
    requires CacheOk(w, cache, c.capacity, links, born, StaleIn(w.mode, links, pc))
    ensures Inv(w, c, s.(links := links, born := born, cache := cache, threads := s.threads[t := pc]))
  {
    var s' := s.(links := links, born := born, cache := cache, threads := s.threads[t := pc]);
    WriterFrameLocks(s, t, pc);
    assert Stale(w.mode, s') == StaleIn(w.mode, links, pc);
    forall u | u in s'.threads ensures PcOk(w, links, born, s.now, s'.threads[u]) {
      if u != t {
        OthersAreFree(w, c, s, t, u);
        FreeOkGrows(w, s.born, born, s.threads[u]);
      }
    }
  }
}
