/** Every step of every thread, and of the world outside the lock, keeps the invariant. */
module LinkStoreSteps {
  import opened Wrappers
  import opened Links
  import opened LinkKeys
  import opened LinkStore
  import opened LinkStoreInvariant
  import C = CacheModel
  import T = Texts

  // ---------- the table query ----------

  /** ORDER BY domain DESC LIMIT 1 means: the domain's own row if there is one, else the root's. */
  lemma RawPrefersTheDomain(links: Table, born: Addresses, d: string, g: string)
    requires TableOk(links, born)
    ensures Raw(links, d, g).None? <==> !Exists(links, d, g) && !Exists(links, "", g)
    ensures Raw(links, d, g).Some? ==>
              var l := Raw(links, d, g).value;
              l.id in links && links[l.id] == l && if Exists(links, d, g) then At(l, d, g) else At(l, "", g)
  {
    if Exists(links, d, g) {
      var id :| id in links && At(links[id], d, g);
      T.Total(d, d);
      assert IsRaw(links, d, g, id);
      if d != "" {
        assert !T.AtMost(d, "");
      }
    } else if Exists(links, "", g) {
      var id :| id in links && At(links[id], "", g);
      assert IsRaw(links, d, g, id);
    }
  }

  // ---------- readers ----------

  /** A row found by a query was found under its own key. */
  lemma RowIsHeldOk(w: World, links: Table, born: Addresses, q: Address, l: Link)
    requires TableOk(links, born) && q in w.asked && l.id in links && links[l.id] == l
    requires At(l, q.0, q.1) || At(l, "", q.1)
    ensures HeldOk(w, links, born, q, l) && LiveCopy(links, l)
  {
    FilesOwn(w.asked, HomeOf(l));
    assert Tries(q, OwnKey(HomeOf(l)));
    LiveFits(w.mode, links, l);
  }

  lemma LookingKeeps(w: World, c: Config, s: State, t: Tid)
    requires Inv(w, c, s) && t in s.threads && s.threads[t].Looking?
    ensures Inv(w, c, ReaderStep(c, s, t))
  {
    assert PcOk(w, s.links, s.born, s.now, s.threads[t]);
    assert Stale(w.mode, s) == None;
    var Looking(d, g) := s.threads[t];
    var r := C.Get(s.cache, c.ttl, s.now, d, g);
    GetKeepsCacheOk(w, s.cache, c.capacity, s.links, s.born, c.ttl, s.now, (d, g));
    ReaderFrame(w, c, s, t, r.list, if r.hit.Some? then Judging(d, g, r.hit.value, true) else Reading(d, g));
  }

  lemma JudgingKeeps(w: World, c: Config, s: State, t: Tid)
    requires Inv(w, c, s) && t in s.threads && s.threads[t].Judging?
    ensures Inv(w, c, ReaderStep(c, s, t))
  {
    assert PcOk(w, s.links, s.born, s.now, s.threads[t]);
    assert Stale(w.mode, s) == None;
    var pc := ReaderStep(c, s, t).threads[t];
    assert ReaderStep(c, s, t) == s.(threads := s.threads[t := pc]);
    ReaderFrame(w, c, s, t, s.cache, pc);
  }

  lemma DroppingKeeps(w: World, c: Config, s: State, t: Tid)
    requires Inv(w, c, s) && t in s.threads && s.threads[t].Dropping?
    ensures Inv(w, c, ReaderStep(c, s, t))
  {
    assert PcOk(w, s.links, s.born, s.now, s.threads[t]);
    assert Stale(w.mode, s) == None;
    var Dropping(d, g, l, at) := s.threads[t];
    DeleteKeepsCacheOk(w, s.cache, c.capacity, s.links, s.born, None, d, g);
    ReaderFrame(w, c, s, t, C.Delete(s.cache, d, g), Answered(d, g, Ended(l), at));
  }

  lemma ReadingKeeps(w: World, c: Config, s: State, t: Tid)
    requires Inv(w, c, s) && t in s.threads && (s.threads[t].Reading? || s.threads[t].ReadingRoot?)
    ensures Inv(w, c, ReaderStep(c, s, t))
  {
    assert PcOk(w, s.links, s.born, s.now, s.threads[t]);
    assert Stale(w.mode, s) == None;
    var d, g := s.threads[t].domain, s.threads[t].slug;
    var from := if s.threads[t].Reading? then d else "";
    RawPrefersTheDomain(s.links, s.born, from, g);
    if Raw(s.links, from, g).Some? {
      RowIsHeldOk(w, s.links, s.born, (d, g), Raw(s.links, from, g).value);
    }
    var pc := ReaderStep(c, s, t).threads[t];
    assert ReaderStep(c, s, t) == s.(threads := s.threads[t := pc]);
    ReaderFrame(w, c, s, t, s.cache, pc);
  }

  lemma PublishingKeeps(w: World, c: Config, s: State, t: Tid)
    requires Inv(w, c, s) && t in s.threads && s.threads[t].Publishing?
    ensures Inv(w, c, ReaderStep(c, s, t))
  {
    assert PcOk(w, s.links, s.born, s.now, s.threads[t]);
    assert Stale(w.mode, s) == None;
    var Publishing(d, g, l, at) := s.threads[t];
    FilesOwn(w.asked, HomeOf(l));
    SetKeepsCacheOk(w, s.cache, c.capacity, s.links, s.born, None, s.now, l.domain, l.slug, l);
    ReaderFrame(w, c, s, t, C.Set(s.cache, c.capacity, s.now, l.domain, l.slug, l), Answered(d, g, Found(l), at));
  }

  lemma ReaderStepKeeps(w: World, c: Config, s: State, t: Tid)
    requires Inv(w, c, s) && t in s.threads && IsReader(s.threads[t]) && !s.threads[t].Answered?
    ensures Inv(w, c, ReaderStep(c, s, t))
  {
    match s.threads[t] {
      case Looking(_, _) => LookingKeeps(w, c, s, t);
      case Judging(_, _, _, _) => JudgingKeeps(w, c, s, t);
      case Dropping(_, _, _, _) => DroppingKeeps(w, c, s, t);
      case Reading(_, _) => ReadingKeeps(w, c, s, t);
      case ReadingRoot(_, _) => ReadingKeeps(w, c, s, t);
      case Publishing(_, _, _, _) => PublishingKeeps(w, c, s, t);
    }
  }

  /** The click of a lookup that found a link may file it under what was asked for. */
  lemma ReachedFiles(asked: iset<Address>, q: Address, a: Address)
    requires Reached(asked, q, a)
    ensures Files(asked, a, Refiled(a, q))
  {
    var key :| Files(asked, a, key) && Tries(q, key);
    FilesOn(asked, a, key, q);
  }

  lemma ReleaseFacts(w: World, c: Config, s: State, t: Tid)
    requires Inv(w, c, s) && t in s.threads && s.threads[t].Answered? && s.threads[t].answer.Found?
    ensures FreeOk(w, s.born, Holding(s.threads[t].answer.link, s.threads[t].slug, false))
  {
    assert PcOk(w, s.links, s.born, s.now, s.threads[t]);
    ReachedFiles(w.asked, (s.threads[t].domain, s.threads[t].slug), HomeOf(s.threads[t].answer.link));
  }

  /** The handler leaves with the link in hand. */
  lemma LeaveWith(w: World, c: Config, s: State, t: Tid, pc: Pc, grants: map<string, Grant>)
    requires Inv(w, c, s) && t in s.threads && IsReader(s.threads[t])
    requires !IsReader(pc) && !IsWriter(pc) && FreeOk(w, s.born, pc)
    ensures Inv(w, c, s.(readers := s.readers - {t}, threads := s.threads[t := pc], grants := grants))
  {
    assert s.writer.None?;
  }

  lemma LeaveWithout(w: World, c: Config, s: State, t: Tid)
    requires Inv(w, c, s) && t in s.threads && IsReader(s.threads[t])
    ensures Inv(w, c, s.(readers := s.readers - {t}, threads := s.threads - {t}))
  {
    assert s.writer.None?;
  }

  lemma ReleaseFound(w: World, c: Config, s: State, t: Tid, l: Link, g: string)
    requires Inv(w, c, s) && t in s.threads && s.threads[t].Answered?
    requires FreeOk(w, s.born, Holding(l, g, false))
    ensures Inv(w, c, Granted(s.(readers := s.readers - {t}), t, l, g, false))
  {
    var s' := Granted(s.(readers := s.readers - {t}), t, l, g, false);
    LeaveWith(w, c, s, t, Holding(l, g, false), s'.grants);
  }

  lemma ReleaseKeeps(w: World, c: Config, s: State, t: Tid)
    requires Inv(w, c, s) && t in s.threads && s.threads[t].Answered?
    ensures Inv(w, c, ReaderStep(c, s, t))
  {
    if s.threads[t].answer.Found? {
      ReleaseFacts(w, c, s, t);
      ReleaseFound(w, c, s, t, s.threads[t].answer.link, s.threads[t].slug);
    } else {
      LeaveWithout(w, c, s, t);
    }
  }

  // ---------- writers ----------

  /** Rewriting a row without touching its id and address keeps the table in order. */
  lemma RowUpdateKeepsTableOk(links: Table, born: Addresses, id: string, row: Link)
    requires TableOk(links, born) && id in links
    requires row.id == id && At(row, links[id].domain, links[id].slug)
    ensures TableOk(links[id := row], born)
  {
  }

  lemma ClickFacts(w: World, c: Config, s: State, t: Tid, k: Click)
    requires Inv(w, c, s) && t in s.threads && s.threads[t] == Locked(ClickJob(k)) && k.id in s.links
    ensures var links := s.links[k.id := ClickedOnce(s.links[k.id], s.now)];
            && TableOk(links, s.born)
            && CacheOk(w, s.cache, c.capacity, links, s.born, if w.mode.Whole? then Some(k.id) else None)
  {
    var row := ClickedOnce(s.links[k.id], s.now);
    RowUpdateKeepsTableOk(s.links, s.born, k.id, row);
    ClickKeepsCacheOk(w, s.cache, c.capacity, s.links, s.born, None, row);
  }

  lemma ClickHits(w: World, c: Config, s: State, t: Tid, k: Click)
    requires Inv(w, c, s) && t in s.threads && s.threads[t] == Locked(ClickJob(k)) && ClickOk(w, s.born, k)
    requires k.id in s.links
    ensures Inv(w, c, s.(links := s.links[k.id := ClickedOnce(s.links[k.id], s.now)],
            threads := s.threads[t := Counted(k)]))
  {
    ClickFacts(w, c, s, t, k);
    WriterFrame(w, c, s, t, s.links[k.id := ClickedOnce(s.links[k.id], s.now)], s.born, s.cache, Counted(k));
  }

  lemma ClickMisses(w: World, c: Config, s: State, t: Tid, k: Click)
    requires Inv(w, c, s) && t in s.threads && s.threads[t] == Locked(ClickJob(k)) && ClickOk(w, s.born, k)
    requires k.id !in s.links
    ensures Inv(w, c, s.(threads := s.threads[t := Counted(k)]))
  {
    WriterFrame(w, c, s, t, s.links, s.born, s.cache, Counted(k));
  }

  lemma LockedClickOk(w: World, c: Config, s: State, t: Tid, k: Click)
    requires Inv(w, c, s) && t in s.threads && s.threads[t] == Locked(ClickJob(k))
    ensures ClickOk(w, s.born, k)
  {
    assert PcOk(w, s.links, s.born, s.now, s.threads[t]);
  }

  lemma BeginClickKeeps(w: World, c: Config, s: State, t: Tid, k: Click, o: Oracle)
    requires Inv(w, c, s) && t in s.threads && s.threads[t] == Locked(ClickJob(k))
    ensures Inv(w, c, Begin(s, t, ClickJob(k), o))
  {
    LockedClickOk(w, c, s, t, k);
    if k.id in s.links {
      ClickHits(w, c, s, t, k);
    } else {
      ClickMisses(w, c, s, t, k);
    }
  }

  lemma BeginOtherKeeps(w: World, c: Config, s: State, t: Tid, o: Oracle)
    requires Inv(w, c, s) && t in s.threads && s.threads[t].Locked? && !s.threads[t].job.ClickJob?
    requires Enabled(s, Go(t, o))
    ensures Inv(w, c, Begin(s, t, s.threads[t].job, o))
  {
    assert PcOk(w, s.links, s.born, s.now, s.threads[t]);
    BeginOtherOk(w, s, t, o);
    var pc := Begin(s, t, s.threads[t].job, o).threads[t];
    assert Begin(s, t, s.threads[t].job, o) == s.(threads := s.threads[t := pc]);
    WriterFrame(w, c, s, t, s.links, s.born, s.cache, pc);
  }

  ghost predicate Begun(w: World, s: State, pc: Pc) {
    IsWriter(pc) && WriterOk(w, s.links, s.born, pc) && StaleIn(w.mode, s.links, pc) == None
  }

  lemma BeginCreateOk(w: World, s: State, t: Tid, r: CreateRequest, o: Oracle)
    requires Normal(r.domain) && o.id !in s.born && Generated(o.slug)
    ensures Begun(w, s, Begin(s, t, CreateJob(r), o).threads[t])
  {
    GeneratedIsStorable(o.slug);
  }

  lemma BeginUpdateOk(w: World, s: State, t: Tid, id: string, e: Edit, user: string, isAdmin: bool, o: Oracle)
    requires TableOk(s.links, s.born)
    ensures Begun(w, s, Begin(s, t, UpdateJob(id, e, user, isAdmin), o).threads[t])
  {
    if id in s.links {
      WritingAnEditStoresIt(s.links[id], e, s.now);
    }
  }

  lemma BeginDeleteOk(w: World, s: State, t: Tid, id: string, user: string, isAdmin: bool, o: Oracle)
    requires TableOk(s.links, s.born)
    ensures Begun(w, s, Begin(s, t, DeleteJob(id, user, isAdmin), o).threads[t])
  {
  }

  lemma BeginOtherOk(w: World, s: State, t: Tid, o: Oracle)
    requires TableOk(s.links, s.born)
    requires t in s.threads && s.threads[t].Locked? && !s.threads[t].job.ClickJob? && Enabled(s, Go(t, o))
    requires JobOk(w, s.born, s.threads[t].job)
    ensures Begun(w, s, Begin(s, t, s.threads[t].job, o).threads[t])
  {
    match s.threads[t].job
    case CreateJob(r) => BeginCreateOk(w, s, t, r, o);
    case UpdateJob(id, e, user, isAdmin) => BeginUpdateOk(w, s, t, id, e, user, isAdmin, o);
    case DeleteJob(id, user, isAdmin) => BeginDeleteOk(w, s, t, id, user, isAdmin, o);
  }

  lemma CountedFacts(w: World, c: Config, s: State, t: Tid, k: Click)
    requires Inv(w, c, s) && t in s.threads && s.threads[t] == Counted(k)
    ensures WriterOk(w, s.links, s.born, if k.id in s.links then Reread(k, s.links[k.id]) else Leaving)
  {
    assert PcOk(w, s.links, s.born, s.now, s.threads[t]);
  }

  lemma CountedKeeps(w: World, c: Config, s: State, t: Tid, k: Click)
    requires Inv(w, c, s) && t in s.threads && s.threads[t] == Counted(k)
    ensures Inv(w, c, s.(threads := s.threads[t := if k.id in s.links then Reread(k, s.links[k.id]) else Leaving]))
  {
    CountedFacts(w, c, s, t, k);
    WriterFrame(w, c, s, t, s.links, s.born, s.cache, if k.id in s.links then Reread(k, s.links[k.id]) else Leaving);
  }

  /** Counting the variant in the row and in the copy keeps the two alike. */
  lemma TallyOk(w: World, cache: seq<C.Entry>, capacity: nat, links: Table, born: Addresses, k: Click, l: Link,
                vs: seq<Variant>)
    requires TableOk(links, born) && RereadOk(w, links, born, k, l)
    requires CacheOk(w, cache, capacity, links, born, if w.mode.Whole? then Some(k.id) else None)
    ensures var links' := links[k.id := links[k.id].(variants := vs)];
            && TableOk(links', born)
            && CacheOk(w, cache, capacity, links', born, if w.mode.Whole? then Some(k.id) else None)
            && RereadOk(w, links', born, k, l.(variants := vs))
  {
    var links' := links[k.id := links[k.id].(variants := vs)];
    SameAfterTally(l, links[k.id], vs);
    RowUpdateKeepsTableOk(links, born, k.id, links'[k.id]);
    ClickKeepsCacheOk(w, cache, capacity, links, born, if w.mode.Whole? then Some(k.id) else None, links'[k.id]);
  }

  lemma TallyFrame(w: World, c: Config, s: State, t: Tid, k: Click, l: Link, vs: seq<Variant>)
    requires Inv(w, c, s) && t in s.threads && s.threads[t] == Reread(k, l) && RereadOk(w, s.links, s.born, k, l)
    ensures Inv(w, c, s.(links := s.links[k.id := s.links[k.id].(variants := vs)],
                         threads := s.threads[t := Tallied(k, l.(variants := vs))]))
  {
    TallyOk(w, s.cache, c.capacity, s.links, s.born, k, l, vs);
    WriterFrame(w, c, s, t, s.links[k.id := s.links[k.id].(variants := vs)], s.born, s.cache,
      Tallied(k, l.(variants := vs)));
  }

  lemma TallyNothing(w: World, c: Config, s: State, t: Tid, k: Click, l: Link)
    requires Inv(w, c, s) && t in s.threads && s.threads[t] == Reread(k, l) && RereadOk(w, s.links, s.born, k, l)
    ensures Inv(w, c, s.(threads := s.threads[t := Tallied(k, l)]))
  {
    WriterFrame(w, c, s, t, s.links, s.born, s.cache, Tallied(k, l));
  }

  lemma RereadKeeps(w: World, c: Config, s: State, t: Tid, k: Click, l: Link, o: Oracle)
    requires Inv(w, c, s) && t in s.threads && s.threads[t] == Reread(k, l)
    ensures Inv(w, c, WriterStep(c, s, t, o))
  {
    RereadFacts(w, c, s, t, k, l);
    if k.variant != "" && l.variants != [] {
      TallyFrame(w, c, s, t, k, l, CountVariant(l.variants, k.variant));
    } else {
      TallyNothing(w, c, s, t, k, l);
    }
  }

  lemma RereadFacts(w: World, c: Config, s: State, t: Tid, k: Click, l: Link)
    requires Inv(w, c, s) && t in s.threads && s.threads[t] == Reread(k, l)
    ensures RereadOk(w, s.links, s.born, k, l)
  {
    assert PcOk(w, s.links, s.born, s.now, s.threads[t]);
  }

  lemma TalliedKeeps(w: World, c: Config, s: State, t: Tid, o: Oracle)
    requires Inv(w, c, s) && t in s.threads && s.threads[t].Tallied?
    ensures Inv(w, c, WriterStep(c, s, t, o))
  {
    assert PcOk(w, s.links, s.born, s.now, s.threads[t]);
    var Tallied(k, l) := s.threads[t];
    var stale := if w.mode.Whole? then Some(k.id) else None;
    if w.mode.Whole? && Trusted(w, HomeOf(l)) {
      WholeTrustKeepsKey(w, HomeOf(l), FormatCacheKey(k.domain, k.slug));
    }
    if l.IsExpired(s.now) {
      DeleteKeepsCacheOk(w, s.cache, c.capacity, s.links, s.born, stale, k.domain, k.slug);
      WriterFrame(w, c, s, t, s.links, s.born, C.Delete(s.cache, k.domain, k.slug), Leaving);
    } else {
      SetKeepsCacheOk(w, s.cache, c.capacity, s.links, s.born, stale, s.now, k.domain, k.slug, l);
      WriterFrame(w, c, s, t, s.links, s.born, C.Set(s.cache, c.capacity, s.now, k.domain, k.slug, l), Leaving);
    }
  }

  lemma NewRowKeepsCacheOk(w: World, cache: seq<C.Entry>, capacity: nat, links: Table, born: Addresses, l: Link)
    requires CacheOk(w, cache, capacity, links, born, None) && l.id !in born
    ensures CacheOk(w, cache, capacity, links[l.id := l], born[l.id := (l.domain, l.slug)], None)
  {
    forall e | e in cache ensures EntryOk(w, e, links[l.id := l], born[l.id := (l.domain, l.slug)], None) {
      assert EntryOk(w, e, links, born, None);
    }
  }

  lemma ChosenKeeps(w: World, c: Config, s: State, t: Tid, o: Oracle)
    requires Inv(w, c, s) && t in s.threads && s.threads[t].Chosen?
    ensures Inv(w, c, WriterStep(c, s, t, o))
  {
    assert PcOk(w, s.links, s.born, s.now, s.threads[t]);
    var l := s.threads[t].link;
    if Exists(s.links, l.domain, l.slug) {
      WriterFrame(w, c, s, t, s.links, s.born, s.cache, Leaving);
    } else {
      var links, born := s.links[l.id := l], s.born[l.id := (l.domain, l.slug)];
      NewRowKeepsTableOk(s.links, s.born, l);
      NewRowKeepsCacheOk(w, s.cache, c.capacity, s.links, s.born, l);
      WriterFrame(w, c, s, t, links, born, s.cache, Inserted(l));
    }
  }

  lemma InsertedKeeps(w: World, c: Config, s: State, t: Tid, o: Oracle)
    requires Inv(w, c, s) && t in s.threads && s.threads[t].Inserted?
    ensures Inv(w, c, WriterStep(c, s, t, o))
  {
    assert PcOk(w, s.links, s.born, s.now, s.threads[t]);
    var l := s.threads[t].link;
    FilesOwn(w.asked, HomeOf(l));
    SetKeepsCacheOk(w, s.cache, c.capacity, s.links, s.born, None, s.now, l.domain, l.slug, l);
    WriterFrame(w, c, s, t, s.links, s.born, C.Set(s.cache, c.capacity, s.now, l.domain, l.slug, l), Leaving);
  }

  lemma NewRowKeepsTableOk(links: Table, born: Addresses, l: Link)
    requires TableOk(links, born) && l.id !in born && Stored(HomeOf(l)) && !Exists(links, l.domain, l.slug)
    ensures TableOk(links[l.id := l], born[l.id := (l.domain, l.slug)])
  {
  }

  lemma LoadedFacts(w: World, c: Config, s: State, t: Tid, l: Link, e: Edit)
    requires Inv(w, c, s) && t in s.threads && s.threads[t] == Loaded(l, e)
    ensures l.id in s.links
    ensures var links := s.links[l.id := WriteColumns(s.links[l.id], l)];
            && TableOk(links, s.born) && CacheOk(w, s.cache, c.capacity, links, s.born, Some(l.id))
            && Known(s.born, l) && LiveCopy(links, l)
  {
    assert PcOk(w, s.links, s.born, s.now, s.threads[t]);
    var links := s.links[l.id := WriteColumns(s.links[l.id], l)];
    RowUpdateKeepsTableOk(s.links, s.born, l.id, links[l.id]);
    RowChangeKeepsCacheOk(w, s.cache, c.capacity, s.links, links, s.born, s.born, None, l.id);
  }

  lemma LoadedKeeps(w: World, c: Config, s: State, t: Tid, l: Link, e: Edit, links: Table)
    requires Inv(w, c, s) && t in s.threads && s.threads[t] == Loaded(l, e)
    requires l.id in s.links && links == s.links[l.id := WriteColumns(s.links[l.id], l)]
    ensures Inv(w, c, s.(links := links, threads := s.threads[t := Written(l)]))
  {
    LoadedFacts(w, c, s, t, l, e);
    WriterFrame(w, c, s, t, links, s.born, s.cache, Written(l));
  }

  lemma WrittenKeeps(w: World, c: Config, s: State, t: Tid, o: Oracle)
    requires Inv(w, c, s) && t in s.threads && s.threads[t].Written?
    ensures Inv(w, c, WriterStep(c, s, t, o))
  {
    assert PcOk(w, s.links, s.born, s.now, s.threads[t]);
    var l := s.threads[t].link;
    FilesOwn(w.asked, HomeOf(l));
    SetKeepsCacheOk(w, s.cache, c.capacity, s.links, s.born, Some(l.id), s.now, l.domain, l.slug, l);
    WriterFrame(w, c, s, t, s.links, s.born, C.Set(s.cache, c.capacity, s.now, l.domain, l.slug, l), Leaving);
  }

  lemma RemovalKeepsTableOk(links: Table, born: Addresses, id: string)
    requires TableOk(links, born)
    ensures TableOk(links - {id}, born)
  {
  }

  lemma DoomedFacts(w: World, c: Config, s: State, t: Tid, l: Link)
    requires Inv(w, c, s) && t in s.threads && s.threads[t] == Doomed(l)
    ensures Known(s.born, l) && CacheOk(w, s.cache, c.capacity, s.links, s.born, None)
  {
    assert PcOk(w, s.links, s.born, s.now, s.threads[t]);
  }

  lemma RemovalKeepsCacheOk(w: World, cache: seq<C.Entry>, capacity: nat, links: Table, links': Table, born: Addresses,
                            l: Link)
    requires CacheOk(w, cache, capacity, links, born, None) && links' == links - {l.id}
    ensures CacheOk(w, cache, capacity, links', born, StaleIn(w.mode, links', Removed(l)))
  {
    RowChangeKeepsCacheOk(w, cache, capacity, links, links', born, born, None, l.id);
  }

  lemma DoomedKeeps(w: World, c: Config, s: State, t: Tid, l: Link, links: Table)
    requires Inv(w, c, s) && t in s.threads && s.threads[t] == Doomed(l) && links == s.links - {l.id}
    ensures Inv(w, c, s.(links := links, threads := s.threads[t := Removed(l)]))
  {
    DoomedFacts(w, c, s, t, l);
    RemovalKeepsTableOk(s.links, s.born, l.id);
    RemovalKeepsCacheOk(w, s.cache, c.capacity, s.links, links, s.born, l);
    WriterFrame(w, c, s, t, links, s.born, s.cache, Removed(l));
  }

  lemma RemovedKeeps(w: World, c: Config, s: State, t: Tid, o: Oracle)
    requires Inv(w, c, s) && t in s.threads && s.threads[t].Removed?
    ensures Inv(w, c, WriterStep(c, s, t, o))
  {
    assert PcOk(w, s.links, s.born, s.now, s.threads[t]);
    var l := s.threads[t].link;
    DeleteKeepsCacheOk(w, s.cache, c.capacity, s.links, s.born, Some(l.id), l.domain, l.slug);
    WriterFrame(w, c, s, t, s.links, s.born, C.Delete(s.cache, l.domain, l.slug), Leaving);
  }

  lemma UnlockKeeps(w: World, c: Config, s: State, t: Tid, o: Oracle)
    requires Inv(w, c, s) && t in s.threads && s.threads[t].Leaving?
    ensures Inv(w, c, WriterStep(c, s, t, o))
  {
    assert Stale(w.mode, s) == None;
  }

  lemma WriterStepKeeps(w: World, c: Config, s: State, t: Tid, o: Oracle)
    requires Inv(w, c, s) && Enabled(s, Go(t, o)) && IsWriter(s.threads[t])
    ensures Inv(w, c, WriterStep(c, s, t, o))
  {
    match s.threads[t]
    case Locked(job) =>
      if job.ClickJob? {
        BeginClickKeeps(w, c, s, t, job.click, o);
      } else {
        BeginOtherKeeps(w, c, s, t, o);
      }
    case Counted(k) => CountedKeeps(w, c, s, t, k);
    case Reread(k, l) => RereadKeeps(w, c, s, t, k, l, o);
    case Tallied(_, _) => TalliedKeeps(w, c, s, t, o);
    case Chosen(_) => ChosenKeeps(w, c, s, t, o);
    case Inserted(_) => InsertedKeeps(w, c, s, t, o);
    case Loaded(l, e) =>
      LoadedFacts(w, c, s, t, l, e);
      LoadedKeeps(w, c, s, t, l, e, s.links[l.id := WriteColumns(s.links[l.id], l)]);
    case Written(_) => WrittenKeeps(w, c, s, t, o);
    case Doomed(l) => DoomedKeeps(w, c, s, t, l, s.links - {l.id});
    case Removed(_) => RemovedKeeps(w, c, s, t, o);
    case Leaving => UnlockKeeps(w, c, s, t, o);
  }

  // ---------- locks and handlers ----------

  lemma AskingKeeps(w: World, c: Config, s: State, t: Tid, o: Oracle)
    requires Inv(w, c, s) && t in s.threads && s.threads[t].Asking? && s.writer.None?
    ensures Inv(w, c, FreeStep(s, t, o))
  {
    assert PcOk(w, s.links, s.born, s.now, s.threads[t]);
    assert Stale(w.mode, FreeStep(s, t, o)) == Stale(w.mode, s);
  }

  lemma WaitingKeeps(w: World, c: Config, s: State, t: Tid, o: Oracle)
    requires Inv(w, c, s) && t in s.threads && s.threads[t].Waiting? && s.writer.None? && s.readers == {}
    ensures Inv(w, c, FreeStep(s, t, o))
  {
    assert PcOk(w, s.links, s.born, s.now, s.threads[t]);
    assert Stale(w.mode, FreeStep(s, t, o)) == Stale(w.mode, s);
  }

  lemma HoldingFacts(w: World, c: Config, s: State, t: Tid, l: Link, g: string, viaPin: bool, variant: string)
    requires Inv(w, c, s) && t in s.threads && s.threads[t] == Holding(l, g, viaPin)
    ensures FreeOk(w, s.born, Waiting(ClickJob(Click(l.id, l.domain, g, variant))))
  {
    assert PcOk(w, s.links, s.born, s.now, s.threads[t]);
  }

  /** A thread outside the locks moves on, or goes. */
  lemma FreeMoves(w: World, c: Config, s: State, t: Tid, pc: Pc, issued: map<string, nat>)
    requires Inv(w, c, s) && t in s.threads && !IsReader(s.threads[t]) && !IsWriter(s.threads[t])
    requires !IsReader(pc) && !IsWriter(pc) && FreeOk(w, s.born, pc)
    ensures Inv(w, c, s.(threads := s.threads[t := pc], issued := issued))
  {
    assert Stale(w.mode, s.(threads := s.threads[t := pc], issued := issued)) == Stale(w.mode, s);
  }

  lemma FreeGoes(w: World, c: Config, s: State, t: Tid)
    requires Inv(w, c, s) && t in s.threads && !IsReader(s.threads[t]) && !IsWriter(s.threads[t])
    ensures Inv(w, c, s.(threads := s.threads - {t}))
  {
    assert Stale(w.mode, s.(threads := s.threads - {t})) == Stale(w.mode, s);
  }

  lemma HoldingKeeps(w: World, c: Config, s: State, t: Tid, o: Oracle)
    requires Inv(w, c, s) && t in s.threads && s.threads[t].Holding?
    ensures Inv(w, c, FreeStep(s, t, o))
  {
    var Holding(l, g, viaPin) := s.threads[t];
    if o.ok {
      HoldingFacts(w, c, s, t, l, g, viaPin, o.variant);
      FreeMoves(w, c, s, t, Waiting(ClickJob(Click(l.id, l.domain, g, o.variant))), FreeStep(s, t, o).issued);
    } else {
      FreeGoes(w, c, s, t);
    }
  }

  // ---------- outside the lock ----------

  /** The same rows, but for the columns written outside the lock. */
  predicate SameTable(a: Table, b: Table) {
    a.Keys == b.Keys && forall id :: id in a ==> Same(a[id], b[id])
  }

  lemma SameTableKeepsPcOk(w: World, a: Table, b: Table, born: Addresses, now: int, later: int, pc: Pc)
    requires SameTable(a, b) && PcOk(w, a, born, now, pc) && now <= later
    ensures PcOk(w, b, born, later, pc)
  {
    SameTableExists(a, b);
  }

  lemma SameTableExists(a: Table, b: Table)
    requires SameTable(a, b)
    ensures forall d, g :: Exists(b, d, g) ==> Exists(a, d, g)
  {
    forall d, g | Exists(b, d, g) ensures Exists(a, d, g) {
      var id :| id in b && At(b[id], d, g);
      assert Same(a[id], b[id]) && At(a[id], d, g);
    }
  }

  lemma OutsideKeepsTable(links: Table, links': Table, born: Addresses)
    requires TableOk(links, born) && SameTable(links, links')
    ensures TableOk(links', born)
  {
    assert forall id :: id in links' ==> Same(links[id], links'[id]);
  }

  lemma OutsideKeepsCache(w: World, cache: seq<C.Entry>, capacity: nat, links: Table, links': Table, born: Addresses,
                          stale: Option<string>)
    requires CacheOk(w, cache, capacity, links, born, stale) && SameTable(links, links')
    ensures CacheOk(w, cache, capacity, links', born, stale)
  {
    forall e | e in cache ensures EntryOk(w, e, links', born, stale) {
      assert EntryOk(w, e, links, born, stale);
      assert e.link.id in links ==> Same(links[e.link.id], links'[e.link.id]);
    }
  }

  lemma OutsideKeeps(w: World, c: Config, s: State, links: Table, later: int)
    requires Inv(w, c, s) && SameTable(s.links, links) && s.now <= later
    ensures Inv(w, c, s.(links := links, now := later))
  {
    OutsideKeepsTable(s.links, links, s.born);
    OutsideKeepsCache(w, s.cache, c.capacity, s.links, links, s.born, Stale(w.mode, s));
    assert Stale(w.mode, s.(links := links, now := later)) == Stale(w.mode, s);
    forall t | t in s.threads ensures PcOk(w, links, s.born, later, s.threads[t]) {
      SameTableKeepsPcOk(w, s.links, links, s.born, s.now, later, s.threads[t]);
    }
  }

  lemma ArrivalKeeps(w: World, c: Config, s: State, t: Tid, pc: Pc, grants: map<string, Grant>)
    requires Inv(w, c, s) && t !in s.threads && !IsReader(pc) && !IsWriter(pc) && FreeOk(w, s.born, pc)
    ensures Inv(w, c, s.(threads := s.threads[t := pc], grants := grants))
  {
    assert Stale(w.mode, s.(threads := s.threads[t := pc], grants := grants)) == Stale(w.mode, s);
  }

  // ---------- all together ----------

  lemma GoKeeps(w: World, c: Config, s: State, t: Tid, o: Oracle)
    requires Inv(w, c, s) && Enabled(s, Go(t, o))
    ensures Inv(w, c, Apply(c, s, Go(t, o)))
  {
    if IsReader(s.threads[t]) {
      if s.threads[t].Answered? {
        ReleaseKeeps(w, c, s, t);
      } else {
        ReaderStepKeeps(w, c, s, t);
      }
    } else if IsWriter(s.threads[t]) {
      WriterStepKeeps(w, c, s, t, o);
    } else {
      match s.threads[t]
      case Asking(_, _) => AskingKeeps(w, c, s, t, o);
      case Waiting(_) => WaitingKeeps(w, c, s, t, o);
      case Holding(_, _, _) => HoldingKeeps(w, c, s, t, o);
    }
  }

  lemma FolderKeeps(w: World, c: Config, s: State, f: string)
    requires Inv(w, c, s)
    ensures Inv(w, c, Apply(c, s, FolderDeleted(f)))
  {
    OutsideKeeps(w, c, s, Apply(c, s, FolderDeleted(f)).links, s.now);
  }

  lemma OwnerKeeps(w: World, c: Config, s: State, former: string, subject: string)
    requires Inv(w, c, s)
    ensures Inv(w, c, Apply(c, s, OwnerAdopted(former, subject)))
  {
    OutsideKeeps(w, c, s, Apply(c, s, OwnerAdopted(former, subject)).links, s.now);
  }

  lemma TickKeeps(w: World, c: Config, s: State, n: nat)
    requires Inv(w, c, s)
    ensures Inv(w, c, s.(now := s.now + n))
  {
    OutsideKeeps(w, c, s, s.links, s.now + n);
  }

  lemma RawIsHeldOk(w: World, links: Table, born: Addresses, d: string, g: string)
    requires TableOk(links, born) && Raw(links, d, g).Some?
    ensures FreeOk(w, born, Holding(Raw(links, d, g).value, g, true))
  {
    RawPrefersTheDomain(links, born, d, g);
    FilesOwn(w.asked, HomeOf(Raw(links, d, g).value));
  }

  lemma VerifyFound(w: World, c: Config, s: State, t: Tid, l: Link, g: string)
    requires Inv(w, c, s) && t !in s.threads && FreeOk(w, s.born, Holding(l, g, true))
    ensures Inv(w, c, Granted(s, t, l, g, true))
  {
    ArrivalKeeps(w, c, s, t, Holding(l, g, true), Granted(s, t, l, g, true).grants);
  }

  lemma VerifyKeeps(w: World, c: Config, s: State, t: Tid, d: string, g: string)
    requires Inv(w, c, s) && t !in s.threads
    ensures Inv(w, c, Apply(c, s, VerifyPin(t, d, g)))
  {
    if Raw(s.links, d, g).Some? {
      RawIsHeldOk(w, s.links, s.born, d, g);
      VerifyFound(w, c, s, t, Raw(s.links, d, g).value, g);
    }
  }

  lemma StepKeepsInv(w: World, c: Config, s: State, e: Event)
    requires Inv(w, c, s) && Enabled(s, e)
    requires IsLookup(e) ==> (e.pc.domain, e.pc.slug) in w.asked
    ensures Inv(w, c, Apply(c, s, e))
  {
    match e
    case Arrive(t, pc) => ArrivalKeeps(w, c, s, t, pc, s.grants);
    case VerifyPin(t, d, g) => VerifyKeeps(w, c, s, t, d, g);
    case Go(t, o) => GoKeeps(w, c, s, t, o);
    case Tick(n) => TickKeeps(w, c, s, n);
    case FolderDeleted(f) => FolderKeeps(w, c, s, f);
    case OwnerAdopted(former, subject) => OwnerKeeps(w, c, s, former, subject);
  }

  /** The invariant holds after every possible run, for the addresses it asks and any others. */
  lemma {:induction false} AlwaysInv(w: World, c: Config, start: int, es: seq<Event>)
    requires Possible(c, start, es) && Asked(es) <= w.asked
    ensures Inv(w, c, After(c, start, es))
  {
    if es != [] {
      var n := |es| - 1;
      assert Asked(es[..n]) <= Asked(es);
      assert IsLookup(es[n]) ==> (es[n].pc.domain, es[n].pc.slug) in Asked(es);
      AlwaysInv(w, c, start, es[..n]);
      StepKeepsInv(w, c, After(c, start, es[..n]), es[n]);
    }
  }
}
