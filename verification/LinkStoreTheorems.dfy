/** What the link service promises over whole runs: coherence, refinement of the table, finality of
    pause and delete. */
module LinkStoreTheorems {
  import opened Wrappers
  import opened Links
  import opened LinkKeys
  import opened LinkStore
  import opened LinkStoreInvariant
  import opened LinkStoreSteps
  import C = CacheModel

  // ---------- coherence ----------

  /** Whoever asks what: whenever no writer holds the lock, a link whose own key no lookup of the run mistook
      for another slug is cached under that key only, and as its row is now. */
  lemma CacheIsCoherent(c: Config, start: int, es: seq<Event>, e: C.Entry)
    requires Possible(c, start, es) && e in After(c, start, es).cache
    requires !Mistaken(Asked(es), HomeOf(e.link))
    ensures var s := After(c, start, es);
            e.key == OwnKey(HomeOf(e.link)) && (s.writer.None? ==> LiveCopy(s.links, e.link))
  {
    var w := World(Asked(es), Whole);
    AlwaysInv(w, c, start, es);
    var s := After(c, start, es);
    assert EntryOk(w, e, s.links, s.born, Stale(w.mode, s));
    WholeTrustKeepsKey(w, HomeOf(e.link), e.key);
  }

  /** Any other entry sits under a key that a chain of lookups of the run leads to. */
  lemma EntriesAreFiled(c: Config, start: int, es: seq<Event>, e: C.Entry)
    requires Possible(c, start, es) && e in After(c, start, es).cache
    ensures Known(After(c, start, es).born, e.link) && Files(Asked(es), HomeOf(e.link), e.key)
  {
    var w := World(Asked(es), Whole);
    AlwaysInv(w, c, start, es);
    var s := After(c, start, es);
    assert EntryOk(w, e, s.links, s.born, Stale(w.mode, s));
  }

  lemma CacheIsBounded(c: Config, start: int, es: seq<Event>)
    requires Possible(c, start, es)
    ensures |After(c, start, es).cache| <= c.capacity && C.Distinct(After(c, start, es).cache)
  {
    AlwaysInv(World(Asked(es), Whole), c, start, es);
  }

  // ---------- when a link has ended ----------

  /** What has been found is on, not at its date yet and below its budget, and what has ended is not, by the clock
      reading it was judged at; a date or a budget that is not positive is none. */
  lemma AnswersAreJudged(c: Config, start: int, es: seq<Event>, t: Tid)
    requires Possible(c, start, es)
    requires t in After(c, start, es).threads && After(c, start, es).threads[t].Answered?
    requires !After(c, start, es).threads[t].answer.Missing?
    ensures var s := After(c, start, es);
            var Answered(_, _, answer, at) := s.threads[t];
            var l := answer.link;
            && at <= s.now
            && (answer.Found? <==>
                  && l.isActive
                  && (forall date :: l.expiresAt == Some(date) && 0 < date ==> at < date)
                  && (forall budget :: l.maxClicks == Some(budget) && 0 < budget ==> l.clickCount < budget))
  {
    var w := World(Asked(es), Whole);
    AlwaysInv(w, c, start, es);
    var s := After(c, start, es);
    assert PcOk(w, s.links, s.born, s.now, s.threads[t]);
    EndedExactly(s.threads[t].answer.link, s.threads[t].at);
  }

  // ---------- Resolve against the table ----------

  /** What the table alone answers for the default host. */
  ghost function TableAnswer(links: Table, slug: string, at: int): Answer {
    if !Exists(links, "", slug) then Missing
    else if RowAt(links, "", slug).IsExpired(at) then Ended(RowAt(links, "", slug))
    else Found(RowAt(links, "", slug))
  }

  predicate SameAnswer(a: Answer, b: Answer) {
    || (a.Found? && b.Found? && Same(a.link, b.link))
    || (a.Ended? && b.Ended? && Same(a.link, b.link))
    || (a.Missing? && b.Missing?)
  }

  /** The unique index leaves one row per address. */
  lemma TheRow(links: Table, born: Addresses, id: string, d: string, g: string)
    requires TableOk(links, born) && id in links && At(links[id], d, g)
    ensures Exists(links, d, g) && RowAt(links, d, g) == links[id]
  {
  }

  /** An unambiguous lookup at the root can only be holding a link of the root, and nobody mistakes those. */
  lemma RootHolds(w: World, links: Table, born: Addresses, g: string, l: Link)
    requires w.mode.Whole? && HeldOk(w, links, born, ("", g), l) && !Ambiguous(("", g))
    ensures LiveCopy(links, l) && At(l, "", g)
  {
    var key :| Files(w.asked, HomeOf(l), key) && Tries(("", g), key);
    UnambiguousFindsTheSlug(w.asked, HomeOf(l), key, ("", g));
    RootIsUnmistaken(w.asked, HomeOf(l));
  }

  /** However Resolves, writers and clicks interleave, whatever the cache holds and whatever others ask, the
      answer to an unambiguous lookup for the default host is the table's own answer for the clock reading it
      was judged at. */
  lemma RootResolveRefinesTheTable(c: Config, start: int, es: seq<Event>, t: Tid)
    requires Possible(c, start, es)
    requires var s := After(c, start, es);
             t in s.threads && s.threads[t].Answered? && s.threads[t].domain == ""
             && !Ambiguous(("", s.threads[t].slug))
    ensures var s := After(c, start, es);
            var Answered(_, g, answer, at) := s.threads[t];
            at <= s.now && SameAnswer(answer, TableAnswer(s.links, g, at))
  {
    var w := World(Asked(es), Whole);
    AlwaysInv(w, c, start, es);
    var s := After(c, start, es);
    assert PcOk(w, s.links, s.born, s.now, s.threads[t]);
    var Answered(_, g, answer, at) := s.threads[t];
    if !answer.Missing? {
      RootHolds(w, s.links, s.born, g, answer.link);
      TheRow(s.links, s.born, answer.link.id, "", g);
    }
  }

  /** The link answers a request: it is the domain's own or the root domain's. */
  predicate Candidate(l: Link, q: Address) {
    At(l, q.0, q.1) || At(l, "", q.1)
  }

  /** A current row of the domain or of the root, or nothing when neither has one. */
  ghost predicate IsCurrent(links: Table, q: Address, answer: Answer) {
    if answer.Missing? then !Exists(links, q.0, q.1) && !Exists(links, "", q.1)
    else
      || (Exists(links, q.0, q.1) && Same(answer.link, RowAt(links, q.0, q.1)))
      || (Exists(links, "", q.1) && Same(answer.link, RowAt(links, "", q.1)))
  }

  lemma HeldAnswers(w: World, links: Table, born: Addresses, q: Address, l: Link)
    requires w.mode.Whole? && HeldOk(w, links, born, q, l) && !Ambiguous(q) && Sure(w.asked, q)
    ensures LiveCopy(links, l) && Candidate(l, q)
  {
    var key :| Files(w.asked, HomeOf(l), key) && Tries(q, key);
    UnambiguousFindsTheSlug(w.asked, HomeOf(l), key, q);
  }

  /** On any host the answer is a current row of the domain or of the root, judged by the same clock reading,
      and nothing is found only if neither exists, when the lookup can find no link that another mistakes. */
  lemma CustomResolveRefinesTheTable(c: Config, start: int, es: seq<Event>, t: Tid)
    requires Possible(c, start, es)
    requires var s := After(c, start, es);
             && t in s.threads && s.threads[t].Answered?
             && var q := (s.threads[t].domain, s.threads[t].slug); !Ambiguous(q) && Sure(Asked(es), q)
    ensures var s := After(c, start, es);
            var Answered(d, g, answer, at) := s.threads[t];
            && at <= s.now && IsCurrent(s.links, (d, g), answer)
            && (answer.Found? ==> !answer.link.IsExpired(at))
            && (answer.Ended? ==> answer.link.IsExpired(at))
  {
    var w := World(Asked(es), Whole);
    AlwaysInv(w, c, start, es);
    var s := After(c, start, es);
    assert PcOk(w, s.links, s.born, s.now, s.threads[t]);
    var Answered(d, g, answer, at) := s.threads[t];
    if !answer.Missing? {
      HeldAnswers(w, s.links, s.born, (d, g), answer.link);
      if At(answer.link, d, g) {
        TheRow(s.links, s.born, answer.link.id, d, g);
      } else {
        TheRow(s.links, s.born, answer.link.id, "", g);
      }
    }
  }

  lemma HitLink(w: World, c: Config, s: State, q: Address)
    requires Inv(w, c, s) && w.mode.Whole? && s.writer.None? && q in w.asked && !Ambiguous(q)
    requires Sure(w.asked, q)
    requires C.Get(s.cache, c.ttl, s.now, q.0, q.1).hit.Some?
    ensures var hit := C.Get(s.cache, c.ttl, s.now, q.0, q.1).hit.value;
            LiveCopy(s.links, hit) && if C.Has(s.cache, OwnKey(q)) then At(hit, q.0, q.1) else At(hit, "", q.1)
  {
    GetKeepsCacheOk(w, s.cache, c.capacity, s.links, s.born, c.ttl, s.now, q);
    var key := C.HitKey(s.cache, q.0, q.1).value;
    var e := C.Find(s.cache, key);
    var a := HomeOf(e.link);
    assert EntryOk(w, e, s.links, s.born, None);
    HeldAnswers(w, s.links, s.born, q, e.link);
    UnambiguousFindsTheSlug(w.asked, a, key, q);
    WholeTrustKeepsKey(w, a, key);
    assert q.0 != "" ==> |OwnKey(q)| > |q.1|;
  }

  /** A cache hit for a custom domain is the row the table would prefer, unless that row exists and is
      just not cached: then the root's entry stands in its way. */
  lemma HitIsPreferredExactlyWhenCached(c: Config, start: int, es: seq<Event>, t: Tid)
    requires Possible(c, start, es)
    requires var s := After(c, start, es); t in s.threads && s.threads[t].Looking?
    requires var s := After(c, start, es);
             var q := (s.threads[t].domain, s.threads[t].slug);
             !Ambiguous(q) && Sure(Asked(es), q) && C.Get(s.cache, c.ttl, s.now, q.0, q.1).hit.Some?
    ensures var s := After(c, start, es);
            var Looking(d, g) := s.threads[t];
            var hit, preferred := C.Get(s.cache, c.ttl, s.now, d, g).hit.value, Raw(s.links, d, g);
            && preferred.Some?
            && (Same(hit, preferred.value) <==> (Exists(s.links, d, g) ==> C.Has(s.cache, FormatCacheKey(d, g))))
  {
    var w := World(Asked(es), Whole);
    AlwaysInv(w, c, start, es);
    var s := After(c, start, es);
    assert PcOk(w, s.links, s.born, s.now, s.threads[t]);
    var Looking(d, g) := s.threads[t];
    HitLink(w, c, s, (d, g));
    var hit := C.Get(s.cache, c.ttl, s.now, d, g).hit.value;
    RawPrefersTheDomain(s.links, s.born, d, g);
    TheRow(s.links, s.born, hit.id, hit.domain, hit.slug);
    var preferred := Raw(s.links, d, g).value;
    TheRow(s.links, s.born, preferred.id, preferred.domain, preferred.slug);
  }

  // ---------- pause and delete ----------

  /** The link was created, and is paused or gone. */
  predicate Off(s: State, id: string) {
    id in s.born && (id in s.links ==> !s.links[id].isActive)
  }

  /** The link was created, and is gone. */
  predicate Gone(s: State, id: string) {
    id in s.born && id !in s.links
  }

  /** The write of an update whose request asks for an active link. */
  predicate Reactivates(s: State, e: Event, id: string) {
    && e.Go? && e.t in s.threads && s.threads[e.t].Loaded? && s.threads[e.t].link.id == id
    && s.threads[e.t].edit.isActive == Some(true)
  }

  predicate ByWriter(s: State, e: Event) {
    e.Go? && e.t in s.threads && IsWriter(s.threads[e.t])
  }

  lemma CacheReadersWriteNoRows(c: Config, s: State, t: Tid)
    requires t in s.threads && (s.threads[t].Looking? || s.threads[t].Dropping? || s.threads[t].Publishing?)
    ensures ReaderStep(c, s, t).links == s.links && ReaderStep(c, s, t).born == s.born
  {
  }

  lemma ReadersWriteNoRows(c: Config, s: State, t: Tid)
    requires t in s.threads && IsReader(s.threads[t])
    ensures ReaderStep(c, s, t).links == s.links && ReaderStep(c, s, t).born == s.born
  {
    if s.threads[t].Looking? || s.threads[t].Dropping? || s.threads[t].Publishing? {
      CacheReadersWriteNoRows(c, s, t);
    }
  }

  lemma FreeStepsWriteNoRows(s: State, t: Tid, o: Oracle)
    requires t in s.threads && !IsReader(s.threads[t]) && !IsWriter(s.threads[t])
    ensures FreeStep(s, t, o).links == s.links && FreeStep(s, t, o).born == s.born
  {
  }

  /** Only a step under the write lock creates, removes or visibly changes rows. */
  lemma RowsOutsideTheLock(c: Config, s: State, e: Event)
    requires Enabled(s, e) && !ByWriter(s, e)
    ensures SameTable(s.links, Apply(c, s, e).links) && Apply(c, s, e).born == s.born
  {
    match e
    case Go(t, o) =>
      if IsReader(s.threads[t]) {
        ReadersWriteNoRows(c, s, t);
      } else {
        FreeStepsWriteNoRows(s, t, o);
      }
    case FolderDeleted(_) =>
    case OwnerAdopted(_, _) =>
    case _ => assert Apply(c, s, e).links == s.links;
  }

  /** What a step under the lock may do to a row: an id is inserted at most once, is_active is written only as the
      request of an update asks, and click_count by clicks only. */
  predicate RowStep(s: State, s': State, pc: Pc, id: string) {
    && id in s'.born
    && (id in s'.links ==>
          && id in s.links
          && (|| s'.links[id].isActive == s.links[id].isActive
              || (pc.Loaded? && pc.link.id == id && pc.edit.isActive == Some(s'.links[id].isActive)))
          && s'.links[id].clickCount == s.links[id].clickCount + (if IsPending(pc, id) then 1 else 0))
  }

  lemma BeginRows(s: State, t: Tid, o: Oracle, id: string)
    requires t in s.threads && s.threads[t].Locked? && id in s.born
    ensures RowStep(s, Begin(s, t, s.threads[t].job, o), s.threads[t], id)
  {
  }

  lemma RereadRows(c: Config, s: State, t: Tid, o: Oracle, id: string)
    requires t in s.threads && s.threads[t].Reread? && id in s.born
    ensures RowStep(s, WriterStep(c, s, t, o), s.threads[t], id)
  {
  }

  lemma ChosenRows(c: Config, s: State, t: Tid, o: Oracle, id: string)
    requires t in s.threads && s.threads[t].Chosen? && s.threads[t].link.id !in s.born && id in s.born
    ensures RowStep(s, WriterStep(c, s, t, o), s.threads[t], id)
  {
  }

  lemma LoadedRows(c: Config, s: State, t: Tid, o: Oracle, id: string)
    requires t in s.threads && s.threads[t].Loaded? && id in s.born
    requires var Loaded(l, e) := s.threads[t];
             l.id in s.links && l.isActive == if e.isActive.Some? then e.isActive.value else s.links[l.id].isActive
    ensures RowStep(s, WriterStep(c, s, t, o), s.threads[t], id)
  {
  }

  lemma DoomedRows(c: Config, s: State, t: Tid, o: Oracle, id: string)
    requires t in s.threads && s.threads[t].Doomed? && id in s.born
    ensures RowStep(s, WriterStep(c, s, t, o), s.threads[t], id)
  {
  }

  predicate WritesRows(pc: Pc) {
    pc.Locked? || pc.Reread? || pc.Chosen? || pc.Loaded? || pc.Doomed?
  }

  lemma PublishingWritesNoRows(c: Config, s: State, t: Tid, o: Oracle)
    requires t in s.threads && (s.threads[t].Inserted? || s.threads[t].Written? || s.threads[t].Removed?)
    ensures WriterStep(c, s, t, o).links == s.links && WriterStep(c, s, t, o).born == s.born
  {
  }

  lemma OthersWriteNoRows(c: Config, s: State, t: Tid, o: Oracle)
    requires t in s.threads && IsWriter(s.threads[t]) && !WritesRows(s.threads[t])
    ensures WriterStep(c, s, t, o).links == s.links && WriterStep(c, s, t, o).born == s.born
  {
    if s.threads[t].Inserted? || s.threads[t].Written? || s.threads[t].Removed? {
      PublishingWritesNoRows(c, s, t, o);
    }
  }

  lemma ChosenIsNew(w: World, c: Config, s: State, t: Tid)
    requires Inv(w, c, s) && t in s.threads && s.threads[t].Chosen?
    ensures s.threads[t].link.id !in s.born
  {
    assert PcOk(w, s.links, s.born, s.now, s.threads[t]);
  }

  lemma RowsUnderTheLock(w: World, c: Config, s: State, t: Tid, o: Oracle, id: string)
    requires Inv(w, c, s) && t in s.threads && IsWriter(s.threads[t]) && id in s.born
    ensures RowStep(s, WriterStep(c, s, t, o), s.threads[t], id)
  {
    if s.threads[t].Locked? {
      BeginRows(s, t, o, id);
    } else if s.threads[t].Reread? {
      RereadRows(c, s, t, o, id);
    } else if s.threads[t].Chosen? {
      ChosenIsNew(w, c, s, t);
      ChosenRows(c, s, t, o, id);
    } else if s.threads[t].Loaded? {
      assert PcOk(w, s.links, s.born, s.now, s.threads[t]);
      LoadedRows(c, s, t, o, id);
    } else if s.threads[t].Doomed? {
      DoomedRows(c, s, t, o, id);
    } else {
      OthersWriteNoRows(c, s, t, o);
    }
  }

  lemma OffStays(w: World, c: Config, s: State, e: Event, id: string)
    requires Inv(w, c, s) && Enabled(s, e) && Off(s, id) && !Reactivates(s, e, id)
    ensures Off(Apply(c, s, e), id)
  {
    if ByWriter(s, e) {
      RowsUnderTheLock(w, c, s, e.t, e.oracle, id);
    } else {
      RowsOutsideTheLock(c, s, e);
      assert id in s.links ==> Same(s.links[id], Apply(c, s, e).links[id]);
    }
  }

  lemma GoneStays(w: World, c: Config, s: State, e: Event, id: string)
    requires Inv(w, c, s) && Enabled(s, e) && Gone(s, id)
    ensures Gone(Apply(c, s, e), id)
  {
    if ByWriter(s, e) {
      RowsUnderTheLock(w, c, s, e.t, e.oracle, id);
    } else {
      RowsOutsideTheLock(c, s, e);
    }
  }

  lemma PrefixIsPossible(c: Config, start: int, es: seq<Event>, n: nat)
    requires Possible(c, start, es) && n <= |es|
    ensures Possible(c, start, es[..n])
    decreases |es| - n
  {
    if n < |es| {
      PrefixIsPossible(c, start, es, n + 1);
      assert es[..n + 1][..n] == es[..n];
    } else {
      assert es[..n] == es;
    }
  }

  ghost predicate NeverReactivated(c: Config, start: int, es: seq<Event>, n: nat, id: string)
    requires Possible(c, start, es)
  {
    forall i :: n <= i < |es| ==> Possible(c, start, es[..i]) && !Reactivates(After(c, start, es[..i]), es[i], id)
  }

  lemma {:induction false} OffStaysAlong(c: Config, start: int, es: seq<Event>, n: nat, id: string)
    requires Possible(c, start, es) && n <= |es|
    requires Possible(c, start, es[..n]) && Off(After(c, start, es[..n]), id) && NeverReactivated(c, start, es, n, id)
    ensures Off(After(c, start, es), id)
    decreases |es|
  {
    if n == |es| {
      assert es[..n] == es;
    } else {
      var before := es[..|es| - 1];
      assert before[..n] == es[..n];
      assert forall i :: n <= i < |before| ==> before[..i] == es[..i] && before[i] == es[i];
      OffStaysAlong(c, start, before, n, id);
      var w := World(Asked(before), Whole);
      AlwaysInv(w, c, start, before);
      OffStays(w, c, After(c, start, before), es[|es| - 1], id);
    }
  }

  lemma {:induction false} GoneStaysAlong(c: Config, start: int, es: seq<Event>, n: nat, id: string)
    requires Possible(c, start, es) && n <= |es|
    requires Possible(c, start, es[..n]) && Gone(After(c, start, es[..n]), id)
    ensures Gone(After(c, start, es), id)
    decreases |es|
  {
    if n == |es| {
      assert es[..n] == es;
    } else {
      var before := es[..|es| - 1];
      assert before[..n] == es[..n];
      GoneStaysAlong(c, start, before, n, id);
      var w := World(Asked(before), Whole);
      AlwaysInv(w, c, start, before);
      GoneStays(w, c, After(c, start, before), es[|es| - 1], id);
    }
  }

  /** Some Resolve is about to return this link. */
  predicate Answers(s: State, t: Tid, id: string) {
    t in s.threads && s.threads[t].Answered? && !s.threads[t].answer.Missing? && s.threads[t].answer.link.id == id
  }

  /** Once a link is paused, and until an update writes it whose request asks for an active link, no Resolve finds
      it alive, whatever clicks, lookups and other edits were under way and whatever was asked, as long as it does
      not stray. */
  lemma PauseIsFinal(c: Config, start: int, es: seq<Event>, n: nat, id: string, t: Tid)
    requires Possible(c, start, es) && n <= |es|
    requires Possible(c, start, es[..n]) && Off(After(c, start, es[..n]), id) && NeverReactivated(c, start, es, n, id)
    requires id in After(c, start, es).born ==> !Strays(Asked(es), After(c, start, es).born[id])
    ensures Answers(After(c, start, es), t, id) ==> After(c, start, es).threads[t].answer.Ended?
  {
    var w := World(Asked(es), Standing);
    OffStaysAlong(c, start, es, n, id);
    AlwaysInv(w, c, start, es);
    var s := After(c, start, es);
    if t in s.threads {
      assert PcOk(w, s.links, s.born, s.now, s.threads[t]);
    }
  }

  /** Once a link is deleted no Resolve returns it again, not even as ended, and once the deletion has released
      the lock no cache entry holds it under its own key, as long as it does not stray. */
  lemma DeleteIsFinal(c: Config, start: int, es: seq<Event>, n: nat, id: string, t: Tid)
    requires Possible(c, start, es) && n <= |es|
    requires Possible(c, start, es[..n]) && Gone(After(c, start, es[..n]), id)
    requires id in After(c, start, es).born ==> !Strays(Asked(es), After(c, start, es).born[id])
    ensures !Answers(After(c, start, es), t, id)
    ensures var s := After(c, start, es);
            s.writer.None? ==> forall e :: e in s.cache && e.link.id == id ==> e.key != OwnKey(HomeOf(e.link))
  {
    var w := World(Asked(es), Standing);
    GoneStaysAlong(c, start, es, n, id);
    AlwaysInv(w, c, start, es);
    var s := After(c, start, es);
    if t in s.threads {
      assert PcOk(w, s.links, s.born, s.now, s.threads[t]);
    }
    if s.writer.None? {
      forall e | e in s.cache && e.link.id == id ensures e.key != OwnKey(HomeOf(e.link)) {
        assert EntryOk(w, e, s.links, s.born, None);
      }
    }
  }
}
