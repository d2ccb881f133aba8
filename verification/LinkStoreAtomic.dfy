/** The write-locked operations are atomic: however lookups wait, clicks are issued, clocks advance and other
    services write their two columns in between, the statements of one call have the effect of the whole. */
module LinkStoreAtomic {
  import opened Wrappers
  import opened Links
  import opened LinkStore
  import opened LinkStoreInvariant
  import opened LinkStoreSteps
  import opened LinkStoreTheorems
  import opened LinkEffects
  import C = CacheModel

  predicate SameEntry(a: C.Entry, b: C.Entry) {
    a.key == b.key && a.cachedAt == b.cachedAt && Same(a.link, b.link)
  }

  predicate SameCache(a: seq<C.Entry>, b: seq<C.Entry>) {
    |a| == |b| && forall i :: 0 <= i < |a| ==> SameEntry(a[i], b[i])
  }

  /** Equal but for the columns written outside the lock. */
  predicate SameStore(a: Store, b: Store) {
    SameTable(a.links, b.links) && SameCache(a.cache, b.cache)
  }

  function Guarded(s: State): Store {
    Store(s.links, s.cache)
  }

  // ---------- how far a call has come that found this store when it ran its first statement ----------

  ghost predicate ClickMidway(s0: Store, k0: Click, at: int, s: Store, pc: Pc) {
    match pc
    case Counted(k) => k == k0 && s.cache == s0.cache && SameTable(RowsCounted(s0.links, k, at), s.links)
    case Reread(k, l) =>
      && k == k0 && s.cache == s0.cache && SameTable(RowsCounted(s0.links, k, at), s.links)
      && k.id in s0.links && Same(l, ClickedOnce(s0.links[k.id], at))
    case Tallied(k, l) =>
      && k == k0 && s.cache == s0.cache && k.id in s0.links
      && Same(l, ClickedRow(s0.links[k.id], k.variant, at)) && SameTable(s0.links[k.id := l], s.links)
    case _ => false
  }

  ghost predicate CreateMidway(s0: Store, r: CreateRequest, o: Oracle, at: int, s: Store, pc: Pc) {
    match pc
    case Chosen(l) =>
      && s.cache == s0.cache && SameTable(s0.links, s.links) && l.id == o.id
      && Created(s0.links, r, o.id, o.slug, at) == if Exists(s0.links, l.domain, l.slug) then None else Some(l)
    case Inserted(l) =>
      && s.cache == s0.cache && SameTable(s0.links[o.id := l], s.links)
      && Created(s0.links, r, o.id, o.slug, at) == Some(l)
    case _ => false
  }

  ghost predicate UpdateMidway(s0: Store, id: string, e: Edit, user: string, isAdmin: bool, at: int, s: Store, pc: Pc) {
    match pc
    case Loaded(l, x) =>
      && x == e && s.cache == s0.cache && SameTable(s0.links, s.links) && l.id == id
      && Updated(s0.links, id, e, user, isAdmin, at) == Some(l)
    case Written(l) =>
      && s.cache == s0.cache && SameTable(s0.links[id := l], s.links)
      && Updated(s0.links, id, e, user, isAdmin, at) == Some(l)
    case _ => false
  }

  ghost predicate DeleteMidway(s0: Store, id: string, user: string, isAdmin: bool, s: Store, pc: Pc) {
    match pc
    case Doomed(l) =>
      && s.cache == s0.cache && SameTable(s0.links, s.links) && l.id == id
      && MayChange(s0.links, id, user, isAdmin) && l == s0.links[id]
    case Removed(l) =>
      && s.cache == s0.cache && SameTable(s0.links - {id}, s.links)
      && MayChange(s0.links, id, user, isAdmin) && l == s0.links[id]
    case _ => false
  }

  ghost predicate JobMidway(s0: Store, job: Job, o: Oracle, at: int, s: Store, pc: Pc) {
    match job
    case ClickJob(k) => ClickMidway(s0, k, at, s, pc)
    case CreateJob(r) => CreateMidway(s0, r, o, at, s, pc)
    case UpdateJob(id, e, user, isAdmin) => UpdateMidway(s0, id, e, user, isAdmin, at, s, pc)
    case DeleteJob(id, user, isAdmin) => DeleteMidway(s0, id, user, isAdmin, s, pc)
  }

  /** On the way, or done: then the whole call's effect is there. */
  ghost predicate Midway(capacity: nat, s0: Store, job: Job, o: Oracle, at: int, later: int, s: Store, pc: Pc) {
    if pc.Leaving? then SameStore(AfterJob(s0, capacity, job, o, at, later), s) else JobMidway(s0, job, o, at, s, pc)
  }

  function RowsCounted(links: Table, k: Click, at: int): Table {
    if k.id in links then links[k.id := ClickedOnce(links[k.id], at)] else links
  }

  // ---------- the first statement ----------

  lemma BeginClickMidway(capacity: nat, s: State, t: Tid, k: Click, o: Oracle)
    ensures var s' := Begin(s, t, ClickJob(k), o);
            Midway(capacity, Guarded(s), ClickJob(k), o, s.now, s.now, Guarded(s'), s'.threads[t])
  {
  }

  lemma BeginCreateMidway(capacity: nat, s: State, t: Tid, r: CreateRequest, o: Oracle)
    requires Generated(o.slug)
    ensures var s' := Begin(s, t, CreateJob(r), o);
            Midway(capacity, Guarded(s), CreateJob(r), o, s.now, s.now, Guarded(s'), s'.threads[t])
  {
    GeneratedIsStorable(o.slug);
  }

  lemma BeginUpdateMidway(capacity: nat, s: State, t: Tid, job: Job, o: Oracle)
    requires job.UpdateJob? && (job.id in s.links ==> s.links[job.id].id == job.id)
    ensures var s' := Begin(s, t, job, o);
            Midway(capacity, Guarded(s), job, o, s.now, s.now, Guarded(s'), s'.threads[t])
  {
    if job.id in s.links {
      WritingAnEditStoresIt(s.links[job.id], job.edit, s.now);
    }
  }

  lemma BeginDeleteMidway(capacity: nat, s: State, t: Tid, job: Job, o: Oracle)
    requires job.DeleteJob? && (job.id in s.links ==> s.links[job.id].id == job.id)
    ensures var s' := Begin(s, t, job, o);
            Midway(capacity, Guarded(s), job, o, s.now, s.now, Guarded(s'), s'.threads[t])
  {
  }

  lemma BeginMidway(w: World, c: Config, s: State, t: Tid, job: Job, o: Oracle)
    requires Inv(w, c, s) && t in s.threads && s.threads[t] == Locked(job) && Enabled(s, Go(t, o))
    ensures var s' := Begin(s, t, job, o);
            Midway(c.capacity, Guarded(s), job, o, s.now, s.now, Guarded(s'), s'.threads[t])
  {
    match job
    case ClickJob(k) => BeginClickMidway(c.capacity, s, t, k, o);
    case CreateJob(r) => BeginCreateMidway(c.capacity, s, t, r, o);
    case UpdateJob(_, _, _, _) => BeginUpdateMidway(c.capacity, s, t, job, o);
    case DeleteJob(_, _, _) => BeginDeleteMidway(c.capacity, s, t, job, o);
  }

  // ---------- the statements after it ----------

  lemma CountedReads(c: Config, s: State, t: Tid, k: Click, p: Oracle)
    requires t in s.threads && s.threads[t] == Counted(k)
    ensures var s' := WriterStep(c, s, t, p);
            && s'.cache == s.cache && s'.links == s.links
            && s'.threads[t] == if k.id in s.links then Reread(k, s.links[k.id]) else Leaving
  {
  }

  lemma CountedMidway(c: Config, s0: Store, k: Click, o: Oracle, at: int, s: State, t: Tid, p: Oracle)
    requires t in s.threads && s.threads[t].Counted? && ClickMidway(s0, k, at, Guarded(s), s.threads[t])
    ensures var s' := WriterStep(c, s, t, p);
            Midway(c.capacity, s0, ClickJob(k), o, at, s.now, Guarded(s'), s'.threads[t])
  {
    CountedReads(c, s, t, k, p);
    assert k.id in s.links ==> Same(RowsCounted(s0.links, k, at)[k.id], s.links[k.id]);
  }

  lemma RowTallied(rows0: Table, rows: Table, k: Click, l: Link, at: int, vs: seq<Variant>)
    requires k.id in rows0 && SameTable(RowsCounted(rows0, k, at), rows) && Same(l, ClickedOnce(rows0[k.id], at))
    ensures SameTable(rows0[k.id := l.(variants := vs)], rows[k.id := rows[k.id].(variants := vs)])
    ensures SameTable(rows0[k.id := l], rows)
  {
    assert forall id :: id in rows ==> Same(RowsCounted(rows0, k, at)[id], rows[id]);
  }

  /** The copy with its variant counted. */
  function Tally(k: Click, l: Link): Link {
    if k.variant != "" && l.variants != [] then l.(variants := CountVariant(l.variants, k.variant)) else l
  }

  lemma RereadWrites(c: Config, s: State, t: Tid, k: Click, l: Link, p: Oracle)
    requires t in s.threads && s.threads[t] == Reread(k, l) && k.id in s.links
    ensures var s' := WriterStep(c, s, t, p);
            && s'.cache == s.cache && s'.threads[t] == Tallied(k, Tally(k, l))
            && s'.links == if k.variant == "" || l.variants == [] then s.links
                           else s.links[k.id := s.links[k.id].(variants := Tally(k, l).variants)]
  {
  }

  lemma RowIsTallied(row: Link, k: Click, l: Link, at: int)
    requires Same(l, ClickedOnce(row, at))
    ensures Same(Tally(k, l), ClickedRow(row, k.variant, at))
  {
  }

  lemma TallyIsMidway(s0: Store, k: Click, at: int, s: Store, l: Link, s': Store)
    requires ClickMidway(s0, k, at, s, Reread(k, l)) && s'.cache == s.cache
    requires s'.links == if k.variant == "" || l.variants == [] then s.links
                         else s.links[k.id := s.links[k.id].(variants := Tally(k, l).variants)]
    ensures ClickMidway(s0, k, at, s', Tallied(k, Tally(k, l)))
  {
    RowTallied(s0.links, s.links, k, l, at, Tally(k, l).variants);
    RowIsTallied(s0.links[k.id], k, l, at);
  }

  lemma RereadMidway(c: Config, s0: Store, k: Click, o: Oracle, at: int, s: State, t: Tid, p: Oracle)
    requires t in s.threads && s.threads[t].Reread? && ClickMidway(s0, k, at, Guarded(s), s.threads[t])
    ensures var s' := WriterStep(c, s, t, p);
            ClickMidway(s0, k, at, Guarded(s'), s'.threads[t])
  {
    var l := s.threads[t].link;
    RereadWrites(c, s, t, k, l, p);
    TallyIsMidway(s0, k, at, Guarded(s), l, Guarded(WriterStep(c, s, t, p)));
  }

  lemma SameLife(a: Link, b: Link, now: int)
    requires Same(a, b)
    ensures a.IsExpired(now) == b.IsExpired(now)
  {
  }

  lemma SetSame(cache: seq<C.Entry>, capacity: nat, now: int, d: string, g: string, a: Link, b: Link)
    requires Same(a, b)
    ensures SameCache(C.Set(cache, capacity, now, d, g, a), C.Set(cache, capacity, now, d, g, b))
  {
  }

  lemma RefreshedSame(cache: seq<C.Entry>, capacity: nat, now: int, k: Click, a: Link, b: Link)
    requires Same(a, b)
    ensures SameCache(Refreshed(cache, capacity, now, k, a), Refreshed(cache, capacity, now, k, b))
  {
    SameLife(a, b, now);
    SetSame(cache, capacity, now, k.domain, k.slug, a, b);
  }

  lemma SameRowSameTable(links: Table, rows: Table, a: Link, b: Link, id: string)
    requires Same(a, b) && SameTable(links[id := b], rows)
    ensures SameTable(links[id := a], rows)
  {
    assert forall j :: j in rows ==> Same(links[id := b][j], rows[j]);
  }

  lemma TalliedMidway(c: Config, s0: Store, k: Click, o: Oracle, at: int, s: State, t: Tid, p: Oracle)
    requires t in s.threads && s.threads[t].Tallied? && ClickMidway(s0, k, at, Guarded(s), s.threads[t])
    ensures var s' := WriterStep(c, s, t, p);
            Midway(c.capacity, s0, ClickJob(k), o, at, s.now, Guarded(s'), s'.threads[t])
  {
    var l := s.threads[t].link;
    var row := ClickedRow(s0.links[k.id], k.variant, at);
    RefreshedSame(s0.cache, c.capacity, s.now, k, row, l);
    SameRowSameTable(s0.links, s.links, row, l, k.id);
  }

  lemma SameAddresses(a: Table, b: Table, d: string, g: string)
    requires SameTable(a, b)
    ensures Exists(a, d, g) <==> Exists(b, d, g)
  {
    if id :| id in a && At(a[id], d, g) {
      assert Same(a[id], b[id]) && At(b[id], d, g);
    }
    SameTableExists(a, b);
  }

  lemma RowAdded(a: Table, b: Table, id: string, l: Link)
    requires SameTable(a, b)
    ensures SameTable(a[id := l], b[id := l])
  {
    assert forall j :: j in a ==> Same(a[j], b[j]);
  }

  lemma ChosenMidway(c: Config, s0: Store, r: CreateRequest, o: Oracle, at: int, s: State, t: Tid, p: Oracle)
    requires t in s.threads && s.threads[t].Chosen? && CreateMidway(s0, r, o, at, Guarded(s), s.threads[t])
    ensures var s' := WriterStep(c, s, t, p);
            Midway(c.capacity, s0, CreateJob(r), o, at, s.now, Guarded(s'), s'.threads[t])
  {
    var l := s.threads[t].link;
    SameAddresses(s0.links, s.links, l.domain, l.slug);
    RowAdded(s0.links, s.links, l.id, l);
  }

  lemma InsertedMidway(c: Config, s0: Store, r: CreateRequest, o: Oracle, at: int, s: State, t: Tid, p: Oracle)
    requires t in s.threads && s.threads[t].Inserted? && CreateMidway(s0, r, o, at, Guarded(s), s.threads[t])
    ensures var s' := WriterStep(c, s, t, p);
            Midway(c.capacity, s0, CreateJob(r), o, at, s.now, Guarded(s'), s'.threads[t])
  {
  }

  lemma LoadedMidway(c: Config, s0: Store, job: Job, o: Oracle, at: int, s: State, t: Tid, p: Oracle)
    requires job.UpdateJob? && t in s.threads && s.threads[t].Loaded?
    requires UpdateMidway(s0, job.id, job.edit, job.user, job.isAdmin, at, Guarded(s), s.threads[t])
    requires var l := s.threads[t].link; l.id in s.links && Same(WriteColumns(s.links[l.id], l), l)
    ensures var s' := WriterStep(c, s, t, p);
            Midway(c.capacity, s0, job, o, at, s.now, Guarded(s'), s'.threads[t])
  {
    var l := s.threads[t].link;
    var row := WriteColumns(s.links[l.id], l);
    RowAdded(s0.links, s.links, job.id, row);
    SameRowSameTable(s0.links, s.links[l.id := row], l, row, job.id);
  }

  lemma WrittenMidway(c: Config, s0: Store, job: Job, o: Oracle, at: int, s: State, t: Tid, p: Oracle)
    requires job.UpdateJob? && t in s.threads && s.threads[t].Written?
    requires UpdateMidway(s0, job.id, job.edit, job.user, job.isAdmin, at, Guarded(s), s.threads[t])
    ensures var s' := WriterStep(c, s, t, p);
            Midway(c.capacity, s0, job, o, at, s.now, Guarded(s'), s'.threads[t])
  {
  }

  lemma RowRemoved(a: Table, b: Table, id: string)
    requires SameTable(a, b)
    ensures SameTable(a - {id}, b - {id})
  {
    assert forall j :: j in a ==> Same(a[j], b[j]);
  }

  lemma DoomedDeletes(c: Config, s: State, t: Tid, l: Link, p: Oracle)
    requires t in s.threads && s.threads[t] == Doomed(l)
    ensures var s' := WriterStep(c, s, t, p);
            s'.cache == s.cache && s'.links == s.links - {l.id} && s'.threads[t] == Removed(l)
  {
  }

  lemma DeletedMidway(s0: Store, job: Job, s: Store, s': Store, l: Link)
    requires job.DeleteJob? && DeleteMidway(s0, job.id, job.user, job.isAdmin, s, Doomed(l))
    requires s'.cache == s.cache && s'.links == s.links - {l.id}
    ensures DeleteMidway(s0, job.id, job.user, job.isAdmin, s', Removed(l))
  {
    RowRemoved(s0.links, s.links, job.id);
  }

  lemma DoomedMidway(c: Config, s0: Store, job: Job, o: Oracle, at: int, s: State, t: Tid, p: Oracle)
    requires job.DeleteJob? && t in s.threads && s.threads[t].Doomed?
    requires DeleteMidway(s0, job.id, job.user, job.isAdmin, Guarded(s), s.threads[t])
    ensures var s' := WriterStep(c, s, t, p);
            DeleteMidway(s0, job.id, job.user, job.isAdmin, Guarded(s'), s'.threads[t])
  {
    DoomedDeletes(c, s, t, s.threads[t].link, p);
    DeletedMidway(s0, job, Guarded(s), Guarded(WriterStep(c, s, t, p)), s.threads[t].link);
  }

  lemma RemovedMidway(c: Config, s0: Store, job: Job, o: Oracle, at: int, s: State, t: Tid, p: Oracle)
    requires job.DeleteJob? && t in s.threads && s.threads[t].Removed?
    requires DeleteMidway(s0, job.id, job.user, job.isAdmin, Guarded(s), s.threads[t])
    ensures var s' := WriterStep(c, s, t, p);
            Midway(c.capacity, s0, job, o, at, s.now, Guarded(s'), s'.threads[t])
  {
  }

  lemma ClickStatement(c: Config, s0: Store, k: Click, o: Oracle, at: int, s: State, t: Tid, p: Oracle)
    requires t in s.threads && ClickMidway(s0, k, at, Guarded(s), s.threads[t])
    ensures var s' := WriterStep(c, s, t, p);
            t in s'.threads && Midway(c.capacity, s0, ClickJob(k), o, at, s.now, Guarded(s'), s'.threads[t])
  {
    if s.threads[t].Counted? {
      CountedMidway(c, s0, k, o, at, s, t, p);
    } else if s.threads[t].Reread? {
      RereadMidway(c, s0, k, o, at, s, t, p);
    } else {
      TalliedMidway(c, s0, k, o, at, s, t, p);
    }
  }

  lemma CreateStatement(c: Config, s0: Store, r: CreateRequest, o: Oracle, at: int, s: State, t: Tid, p: Oracle)
    requires t in s.threads && CreateMidway(s0, r, o, at, Guarded(s), s.threads[t])
    ensures var s' := WriterStep(c, s, t, p);
            t in s'.threads && Midway(c.capacity, s0, CreateJob(r), o, at, s.now, Guarded(s'), s'.threads[t])
  {
    if s.threads[t].Chosen? {
      ChosenMidway(c, s0, r, o, at, s, t, p);
    } else {
      InsertedMidway(c, s0, r, o, at, s, t, p);
    }
  }

  lemma UpdateStatement(w: World, c: Config, s0: Store, job: Job, o: Oracle, at: int, s: State, t: Tid, p: Oracle)
    requires job.UpdateJob? && Inv(w, c, s) && t in s.threads
    requires UpdateMidway(s0, job.id, job.edit, job.user, job.isAdmin, at, Guarded(s), s.threads[t])
    ensures var s' := WriterStep(c, s, t, p);
            t in s'.threads && Midway(c.capacity, s0, job, o, at, s.now, Guarded(s'), s'.threads[t])
  {
    if s.threads[t].Loaded? {
      assert PcOk(w, s.links, s.born, s.now, s.threads[t]);
      LoadedMidway(c, s0, job, o, at, s, t, p);
    } else {
      WrittenMidway(c, s0, job, o, at, s, t, p);
    }
  }

  lemma DeleteStatement(c: Config, s0: Store, job: Job, o: Oracle, at: int, s: State, t: Tid, p: Oracle)
    requires job.DeleteJob? && t in s.threads
    requires DeleteMidway(s0, job.id, job.user, job.isAdmin, Guarded(s), s.threads[t])
    ensures var s' := WriterStep(c, s, t, p);
            t in s'.threads && Midway(c.capacity, s0, job, o, at, s.now, Guarded(s'), s'.threads[t])
  {
    if s.threads[t].Doomed? {
      DoomedMidway(c, s0, job, o, at, s, t, p);
    } else {
      RemovedMidway(c, s0, job, o, at, s, t, p);
    }
  }

  lemma StatementMidway(w: World, c: Config, s0: Store, job: Job, o: Oracle, at: int, s: State, t: Tid, p: Oracle)
    requires Inv(w, c, s) && t in s.threads && IsWriter(s.threads[t])
    requires JobMidway(s0, job, o, at, Guarded(s), s.threads[t])
    ensures var s' := WriterStep(c, s, t, p);
            t in s'.threads && Midway(c.capacity, s0, job, o, at, s.now, Guarded(s'), s'.threads[t])
  {
    match job
    case ClickJob(k) => ClickStatement(c, s0, k, o, at, s, t, p);
    case CreateJob(r) => CreateStatement(c, s0, r, o, at, s, t, p);
    case UpdateJob(_, _, _, _) => UpdateStatement(w, c, s0, job, o, at, s, t, p);
    case DeleteJob(_, _, _) => DeleteStatement(c, s0, job, o, at, s, t, p);
  }

  // ---------- what others do meanwhile ----------

  lemma SameTableChains(a: Table, b: Table, links: Table)
    requires SameTable(a, b) && SameTable(b, links)
    ensures SameTable(a, links)
  {
    assert forall id :: id in a ==> Same(a[id], b[id]) && Same(b[id], links[id]);
  }

  /** Nothing but the two columns has been written. */
  predicate Unheard(s: Store, s': Store) {
    s'.cache == s.cache && SameTable(s.links, s'.links)
  }

  lemma OthersMidClick(s0: Store, k: Click, at: int, s: Store, pc: Pc, s': Store)
    requires ClickMidway(s0, k, at, s, pc) && Unheard(s, s')
    ensures ClickMidway(s0, k, at, s', pc)
  {
    SameTableChains(if pc.Tallied? then s0.links[k.id := pc.link] else RowsCounted(s0.links, k, at), s.links, s'.links);
  }

  lemma OthersMidCreate(s0: Store, r: CreateRequest, o: Oracle, at: int, s: Store, pc: Pc, s': Store)
    requires CreateMidway(s0, r, o, at, s, pc) && Unheard(s, s')
    ensures CreateMidway(s0, r, o, at, s', pc)
  {
    SameTableChains(if pc.Chosen? then s0.links else s0.links[o.id := pc.link], s.links, s'.links);
  }

  lemma OthersMidUpdate(s0: Store, job: Job, at: int, s: Store, pc: Pc, s': Store)
    requires job.UpdateJob? && UpdateMidway(s0, job.id, job.edit, job.user, job.isAdmin, at, s, pc)
    requires Unheard(s, s')
    ensures UpdateMidway(s0, job.id, job.edit, job.user, job.isAdmin, at, s', pc)
  {
    SameTableChains(if pc.Loaded? then s0.links else s0.links[job.id := pc.link], s.links, s'.links);
  }

  lemma OthersMidDelete(s0: Store, job: Job, s: Store, pc: Pc, s': Store)
    requires job.DeleteJob? && DeleteMidway(s0, job.id, job.user, job.isAdmin, s, pc) && Unheard(s, s')
    ensures DeleteMidway(s0, job.id, job.user, job.isAdmin, s', pc)
  {
    SameTableChains(if pc.Doomed? then s0.links else s0.links - {job.id}, s.links, s'.links);
  }

  lemma OthersMidway(capacity: nat, s0: Store, job: Job, o: Oracle, at: int, later: int, s: Store, pc: Pc, s': Store)
    requires Midway(capacity, s0, job, o, at, later, s, pc) && Unheard(s, s')
    ensures Midway(capacity, s0, job, o, at, later, s', pc)
  {
    if pc.Leaving? {
      SameTableChains(AfterJob(s0, capacity, job, o, at, later).links, s.links, s'.links);
    } else {
      match job
      case ClickJob(k) => OthersMidClick(s0, k, at, s, pc, s');
      case CreateJob(r) => OthersMidCreate(s0, r, o, at, s, pc, s');
      case UpdateJob(_, _, _, _) => OthersMidUpdate(s0, job, at, s, pc, s');
      case DeleteJob(_, _, _) => OthersMidDelete(s0, job, s, pc, s');
    }
  }

  lemma FreeStepStandsAside(s: State, u: Tid, o: Oracle, t: Tid)
    requires u in s.threads && !IsReader(s.threads[u]) && !IsWriter(s.threads[u]) && t in s.threads && t != u
    ensures var s' := FreeStep(s, u, o);
            s'.cache == s.cache && s'.now == s.now && t in s'.threads && s'.threads[t] == s.threads[t]
  {
  }

  /** While a thread holds the write lock, the others change neither the cache nor, but for the two columns, rows. */
  lemma OthersUnderTheLock(w: World, c: Config, s: State, t: Tid, e: Event)
    requires Inv(w, c, s) && t in s.threads && IsWriter(s.threads[t]) && Enabled(s, e) && !(e.Go? && e.t == t)
    ensures Unheard(Guarded(s), Guarded(Apply(c, s, e))) && s.now <= Apply(c, s, e).now
    ensures t in Apply(c, s, e).threads && Apply(c, s, e).threads[t] == s.threads[t]
  {
    if e.Go? {
      OthersAreFree(w, c, s, t, e.t);
      FreeStepStandsAside(s, e.t, e.oracle, t);
    }
    RowsOutsideTheLock(c, s, e);
  }

  // ---------- whole calls ----------

  /** This thread has the write lock all the way from the n-th event on. */
  ghost predicate Holds(c: Config, start: int, es: seq<Event>, n: nat, t: Tid)
    requires Possible(c, start, es)
  {
    forall i :: n <= i <= |es| ==>
      Possible(c, start, es[..i]) && t in After(c, start, es[..i]).threads
      && IsWriter(After(c, start, es[..i]).threads[t])
  }

  lemma HeldBefore(c: Config, start: int, es: seq<Event>, n: nat, t: Tid)
    requires Possible(c, start, es) && n < |es| && Holds(c, start, es, n, t)
    ensures Possible(c, start, es[..|es| - 1]) && Holds(c, start, es[..|es| - 1], n, t)
    ensures t in After(c, start, es).threads && IsWriter(After(c, start, es).threads[t])
    ensures var s := After(c, start, es[..|es| - 1]); t in s.threads && IsWriter(s.threads[t])
  {
    var before := es[..|es| - 1];
    assert es[..|es|] == es && before[..|before|] == before;
    assert forall i :: n <= i <= |before| ==> before[..i] == es[..i];
  }

  ghost predicate Underway(capacity: nat, s0: State, job: Job, o: Oracle, s: State, t: Tid) {
    t in s.threads && exists later ::
      s0.now <= later <= s.now
      && Midway(capacity, Guarded(s0), job, o, s0.now, later, Guarded(s), s.threads[t])
  }

  lemma OthersKeepUnderway(c: Config, s0: State, job: Job, o: Oracle, s: State, t: Tid, s': State)
    requires Underway(c.capacity, s0, job, o, s, t)
    requires Unheard(Guarded(s), Guarded(s')) && s.now <= s'.now
    requires t in s'.threads && s'.threads[t] == s.threads[t]
    ensures Underway(c.capacity, s0, job, o, s', t)
  {
    var later :| s0.now <= later <= s.now
      && Midway(c.capacity, Guarded(s0), job, o, s0.now, later, Guarded(s), s.threads[t]);
    OthersMidway(c.capacity, Guarded(s0), job, o, s0.now, later, Guarded(s), s.threads[t], Guarded(s'));
  }

  lemma StatementKeepsUnderway(w: World, c: Config, s0: State, job: Job, o: Oracle, s: State, t: Tid, p: Oracle)
    requires Inv(w, c, s) && Underway(c.capacity, s0, job, o, s, t) && IsWriter(s.threads[t])
    requires !s.threads[t].Leaving? && !s.threads[t].Locked?
    ensures Underway(c.capacity, s0, job, o, WriterStep(c, s, t, p), t)
  {
    StatementMidway(w, c, Guarded(s0), job, o, s0.now, s, t, p);
    var s' := WriterStep(c, s, t, p);
    ClockStands(c, s, t, p);
    assert Midway(c.capacity, Guarded(s0), job, o, s0.now, s.now, Guarded(s'), s'.threads[t]);
  }

  lemma ClockStands(c: Config, s: State, t: Tid, p: Oracle)
    requires t in s.threads && IsWriter(s.threads[t]) && !s.threads[t].Locked?
    ensures WriterStep(c, s, t, p).now == s.now
  {
    if s.threads[t].Counted? || s.threads[t].Reread? || s.threads[t].Tallied? {
      ClockStandsForClicks(c, s, t, p);
    }
  }

  lemma ClockStandsForClicks(c: Config, s: State, t: Tid, p: Oracle)
    requires t in s.threads && (s.threads[t].Counted? || s.threads[t].Reread? || s.threads[t].Tallied?)
    ensures WriterStep(c, s, t, p).now == s.now
  {
  }

  lemma StepKeepsUnderway(w: World, c: Config, s0: State, job: Job, o: Oracle, s: State, t: Tid, e: Event)
    requires Inv(w, c, s) && Enabled(s, e) && Underway(c.capacity, s0, job, o, s, t)
    requires IsWriter(s.threads[t])
    requires t in Apply(c, s, e).threads
    ensures Underway(c.capacity, s0, job, o, Apply(c, s, e), t)
  {
    if e.Go? && e.t == t {
      assert !s.threads[t].Leaving? && !s.threads[t].Locked?;
      StatementKeepsUnderway(w, c, s0, job, o, s, t, e.oracle);
    } else {
      OthersUnderTheLock(w, c, s, t, e);
      OthersKeepUnderway(c, s0, job, o, s, t, Apply(c, s, e));
    }
  }

  lemma {:induction false} CallsGoOn(c: Config, start: int, es: seq<Event>, n: nat, t: Tid, job: Job, o: Oracle)
    requires Possible(c, start, es) && n < |es| && Holds(c, start, es, n, t) && es[n] == Go(t, o)
    requires Possible(c, start, es[..n]) && t in After(c, start, es[..n]).threads
    requires After(c, start, es[..n]).threads[t] == Locked(job)
    ensures Underway(c.capacity, After(c, start, es[..n]), job, o, After(c, start, es), t)
    decreases |es|
  {
    var before := es[..|es| - 1];
    var w := World(Asked(before), Whole);
    var s0, s := After(c, start, es[..n]), After(c, start, before);
    HeldBefore(c, start, es, n, t);
    AlwaysInv(w, c, start, before);
    if n == |before| {
      BeginMidway(w, c, s0, t, job, o);
      assert Midway(c.capacity, Guarded(s0), job, o, s0.now, s0.now, Guarded(After(c, start, es)),
                    After(c, start, es).threads[t]);
    } else {
      assert before[..n] == es[..n];
      CallsGoOn(c, start, before, n, t, job, o);
      StepKeepsUnderway(w, c, s0, job, o, s, t, es[|es| - 1]);
    }
  }

  /** Whatever happens while a click, a creation, an edit or a deletion holds the write lock: when it is about to
      give it back, rows and cache are as the whole call makes them of what its first statement found, with the
      clock read then and once more, folder and owner columns apart. */
  lemma CallsAreAtomic(c: Config, start: int, es: seq<Event>, n: nat, t: Tid, job: Job, o: Oracle)
    requires Possible(c, start, es) && n < |es| && Holds(c, start, es, n, t) && es[n] == Go(t, o)
    requires Possible(c, start, es[..n]) && t in After(c, start, es[..n]).threads
    requires After(c, start, es[..n]).threads[t] == Locked(job)
    requires t in After(c, start, es).threads && After(c, start, es).threads[t].Leaving?
    ensures var s0, s := After(c, start, es[..n]), After(c, start, es);
            exists later :: s0.now <= later <= s.now
              && SameStore(AfterJob(Guarded(s0), c.capacity, job, o, s0.now, later), Guarded(s))
  {
    CallsGoOn(c, start, es, n, t, job, o);
    var s0, s := After(c, start, es[..n]), After(c, start, es);
    var later :| s0.now <= later <= s.now
      && Midway(c.capacity, Guarded(s0), job, o, s0.now, later, Guarded(s), s.threads[t]);
    assert SameStore(AfterJob(Guarded(s0), c.capacity, job, o, s0.now, later), Guarded(s));
  }

  // ---------- a lookup on its own ----------

  /** The thread's next n steps under the read lock, with nobody else moving, end here. */
  ghost predicate Alone(c: Config, s: State, t: Tid, n: nat, u: State)
    decreases n
  {
    if n == 0 then s == u else t in s.threads && IsReader(s.threads[t]) && Alone(c, ReaderStep(c, s, t), t, n - 1, u)
  }

  /** The thread answers, and leaves this cache. */
  function Answering(s: State, t: Tid, d: string, g: string, cache: seq<C.Entry>, answer: Answer): State {
    s.(cache := cache, threads := s.threads[t := Answered(d, g, answer, s.now)])
  }

  lemma OneAlone(c: Config, s: State, t: Tid, u: State)
    requires t in s.threads && IsReader(s.threads[t]) && ReaderStep(c, s, t) == u
    ensures Alone(c, s, t, 1, u)
  {
    assert Alone(c, u, t, 0, u);
  }

  lemma MoreAlone(c: Config, s: State, t: Tid, s1: State, n: nat, u: State)
    requires t in s.threads && IsReader(s.threads[t]) && ReaderStep(c, s, t) == s1 && Alone(c, s1, t, n, u)
    ensures Alone(c, s, t, n + 1, u)
  {
  }

  lemma CachedAlone(c: Config, s: State, t: Tid, d: string, g: string, l: Link) returns (n: nat)
    requires t in s.threads && s.threads[t] == Judging(d, g, l, true)
    ensures Alone(c, s, t, n, Answering(s, t, d, g, if l.IsExpired(s.now) then C.Delete(s.cache, d, g) else s.cache,
                                        AnswerOf(Some(l), s.now)))
  {
    if l.IsExpired(s.now) {
      var s1 := s.(threads := s.threads[t := Dropping(d, g, l, s.now)]);
      OneAlone(c, s1, t, Answering(s, t, d, g, C.Delete(s.cache, d, g), Ended(l)));
      MoreAlone(c, s, t, s1, 1, Answering(s, t, d, g, C.Delete(s.cache, d, g), Ended(l)));
      n := 2;
    } else {
      OneAlone(c, s, t, Answering(s, t, d, g, s.cache, Found(l)));
      n := 1;
    }
  }

  lemma ReadAlone(c: Config, s: State, t: Tid, d: string, g: string, l: Link) returns (n: nat)
    requires t in s.threads && s.threads[t] == Judging(d, g, l, false)
    ensures Alone(c, s, t, n, Answering(s, t, d, g, Filled(s.cache, c.capacity, Some(l), s.now),
                                        AnswerOf(Some(l), s.now)))
  {
    var u := Answering(s, t, d, g, Filled(s.cache, c.capacity, Some(l), s.now), AnswerOf(Some(l), s.now));
    if l.IsExpired(s.now) {
      OneAlone(c, s, t, u);
      n := 1;
    } else {
      var s1 := s.(threads := s.threads[t := Publishing(d, g, l, s.now)]);
      OneAlone(c, s1, t, u);
      MoreAlone(c, s, t, s1, 1, u);
      n := 2;
    }
  }

  /** The ordered query finds the domain's row, else the root's. */
  lemma RawIsFound(links: Table, born: Addresses, d: string, g: string)
    requires TableOk(links, born)
    ensures Raw(links, d, g) == FoundIn(links, d, g)
  {
    RawPrefersTheDomain(links, born, d, g);
    if Raw(links, d, g).Some? {
      var l := Raw(links, d, g).value;
      TheRow(links, born, l.id, l.domain, g);
    }
  }

  lemma AnsweringLater(s: State, t: Tid, d: string, g: string, pc: Pc, list: seq<C.Entry>, cache: seq<C.Entry>,
                       answer: Answer)
    ensures Answering(s.(cache := list, threads := s.threads[t := pc]), t, d, g, cache, answer)
            == Answering(s, t, d, g, cache, answer)
  {
  }

  lemma FoundAlone(c: Config, s: State, t: Tid, d: string, g: string, l: Link) returns (n: nat)
    requires t in s.threads && s.threads[t] == Reading(d, g) && Raw(s.links, d, g) == Some(l)
    ensures Alone(c, s, t, n, Answering(s, t, d, g, Filled(s.cache, c.capacity, Some(l), s.now),
                                        AnswerOf(Some(l), s.now)))
  {
    var pc := Judging(d, g, l, false);
    var s1 := s.(threads := s.threads[t := pc]);
    n := ReadAlone(c, s1, t, d, g, l);
    AnsweringLater(s, t, d, g, pc, s.cache, Filled(s.cache, c.capacity, Some(l), s.now), AnswerOf(Some(l), s.now));
    MoreAlone(c, s, t, s1, n, Answering(s, t, d, g, Filled(s.cache, c.capacity, Some(l), s.now),
                                        AnswerOf(Some(l), s.now)));
    n := n + 1;
  }

  lemma NoneAlone(c: Config, s: State, t: Tid, d: string, g: string) returns (n: nat)
    requires t in s.threads && s.threads[t] == Reading(d, g)
    requires Raw(s.links, d, g).None? && Raw(s.links, "", g).None?
    ensures Alone(c, s, t, n, Answering(s, t, d, g, s.cache, Missing))
  {
    if d != "" {
      var s1 := s.(threads := s.threads[t := ReadingRoot(d, g)]);
      OneAlone(c, s1, t, Answering(s, t, d, g, s.cache, Missing));
      MoreAlone(c, s, t, s1, 1, Answering(s, t, d, g, s.cache, Missing));
      n := 2;
    } else {
      OneAlone(c, s, t, Answering(s, t, d, g, s.cache, Missing));
      n := 1;
    }
  }

  lemma MissAlone(born: Addresses, c: Config, s: State, t: Tid, d: string, g: string) returns (n: nat)
    requires TableOk(s.links, born) && t in s.threads && s.threads[t] == Reading(d, g)
    ensures var found := FoundIn(s.links, d, g);
            Alone(c, s, t, n, Answering(s, t, d, g, Filled(s.cache, c.capacity, found, s.now),
                                        AnswerOf(found, s.now)))
  {
    RawIsFound(s.links, born, d, g);
    RawIsFound(s.links, born, "", g);
    if Raw(s.links, d, g).Some? {
      n := FoundAlone(c, s, t, d, g, Raw(s.links, d, g).value);
    } else {
      n := NoneAlone(c, s, t, d, g);
    }
  }

  lemma LookStepped(c: Config, s: State, t: Tid, d: string, g: string)
    requires t in s.threads && s.threads[t] == Looking(d, g)
    ensures var r := C.Get(s.cache, c.ttl, s.now, d, g);
            ReaderStep(c, s, t) == s.(
              cache := r.list,
              threads := s.threads[t := if r.hit.Some? then Judging(d, g, r.hit.value, true) else Reading(d, g)])
  {
  }

  /** A lookup that has the read lock to itself answers, and leaves the cache, as the whole call does. */
  lemma LookupsAloneResolve(w: World, c: Config, s: State, t: Tid, d: string, g: string) returns (n: nat)
    requires Inv(w, c, s) && t in s.threads && s.threads[t] == Looking(d, g)
    ensures Alone(c, s, t, n, Answering(s, t, d, g, ResolveCache(s.cache, c.capacity, c.ttl, s.links, s.now, d, g),
                                        ResolveAnswer(s.cache, c.ttl, s.links, s.now, d, g)))
  {
    var r := C.Get(s.cache, c.ttl, s.now, d, g);
    var cache := ResolveCache(s.cache, c.capacity, c.ttl, s.links, s.now, d, g);
    var answer := ResolveAnswer(s.cache, c.ttl, s.links, s.now, d, g);
    var pc := if r.hit.Some? then Judging(d, g, r.hit.value, true) else Reading(d, g);
    var s1 := s.(cache := r.list, threads := s.threads[t := pc]);
    LookStepped(c, s, t, d, g);
    AnsweringLater(s, t, d, g, pc, r.list, cache, answer);
    if r.hit.Some? {
      n := CachedAlone(c, s1, t, d, g, r.hit.value);
    } else {
      n := MissAlone(s.born, c, s1, t, d, g);
    }
    MoreAlone(c, s, t, s1, n, Answering(s, t, d, g, cache, answer));
    n := n + 1;
  }
}
