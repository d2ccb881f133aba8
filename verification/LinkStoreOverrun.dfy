/** Runs in which a link is served beyond its click budget, and when there are none. */
module LinkStoreOverrun {
  import opened Wrappers
  import opened Links
  import opened LinkKeys
  import opened LinkStore
  import opened LinkStoreInvariant
  import opened LinkStoreSteps
  import opened LinkStoreTheorems
  import opened LinkStoreClicks
  import opened LinkStoreRuns
  import opened LinkEffects
  import C = CacheModel

  /** The one link of the run: it ends with its m-th click and not before. */
  predicate Limited(l: Link, a: Address, m: int) {
    && l.id == "i" && HomeOf(l) == a && l.isActive && l.expiresAt.None? && l.maxClicks == Some(m) && m > 0
    && l.variants == []
  }

  lemma EndsWithItsClicks(l: Link, a: Address, m: int, now: int)
    requires Limited(l, a, m)
    ensures l.IsExpired(now) <==> l.clickCount >= m
  {
  }

  // ---------- steps of a run ----------

  lemma ReachesLimited(c: Config, start: int, asked: iset<Address>, a: Address, m: int, pin: string)
    returns (u: State, e: C.Entry)
    requires Stored(a) && m > 0
    ensures Reaches(c, start, asked, u) && Idle(u) && u.cache == [e] && u.now == start
    ensures e.key == OwnKey(a) && e.cachedAt == start && Limited(e.link, a, m) && e.link.clickCount == 0
    ensures e.link.pinHash == pin && u.links == map["i" := e.link]
  {
    var l;
    u, l := ReachesCached(c, start, asked, a, BLANK.(maxClicks := Some(m), pinHash := pin));
    e := C.Entry(OwnKey(a), l, start);
  }

  /** A copy with clicks left is found and served, while others stand by. */
  lemma ReachesVisit(c: Config, start: int, asked: iset<Address>, s: State, a: Address, m: int, q: Address, l: Link)
    returns (u: State)
    requires Reaches(c, start, asked, s) && Quiet(s) && 1 !in s.threads && q in asked
    requires C.Get(s.cache, c.ttl, s.now, q.0, q.1).hit == Some(l) && Limited(l, a, m) && !l.HasPin()
    requires l.clickCount < m
    ensures Reaches(c, start, asked, u)
    ensures u == s.(cache := C.Get(s.cache, c.ttl, s.now, q.0, q.1).list,
                    threads := s.threads[1 := Waiting(ClickJob(Click("i", a.0, q.1, "")))],
                    grants := s.grants["i" := Grant(Some(m), InFlight(s.threads, "i"))], issued := u.issued)
  {
    EndsWithItsClicks(l, a, m, s.now);
    var s1 := ReachesAnswerOf(c, start, asked, s, 1, q, l);
    u := ReachesWaiting(c, start, asked, s1, s.threads, 1, q, l, s.now);
  }

  /** The row after one more click. */
  function Hit(row: Link, now: int): Link {
    ClickedOnce(row, now)
  }

  /** The visit's click lands, and refreshes the cache under what was asked for. */
  lemma ReachesClick(c: Config, start: int, asked: iset<Address>, s: State, a: Address, m: int, q: Address, l: Link,
                     row: Link) returns (u: State)
    requires Reaches(c, start, asked, s) && Quiet(s) && 1 !in s.threads && q in asked
    requires C.Get(s.cache, c.ttl, s.now, q.0, q.1).hit == Some(l) && Limited(l, a, m) && !l.HasPin()
    requires l.clickCount < m && "i" in s.links && row == Hit(s.links["i"], s.now)
    ensures Reaches(c, start, asked, u)
    ensures u == s.(links := s.links["i" := row], grants := u.grants, issued := u.issued,
                    cache := Refreshed(C.Get(s.cache, c.ttl, s.now, q.0, q.1).list, c.capacity, s.now,
                                       Click("i", a.0, q.1, ""), row))
  {
    var k := Click("i", a.0, q.1, "");
    var s1 := ReachesVisit(c, start, asked, s, a, m, q, l);
    assert Quiet(s1) && s1.links == s.links && s1.now == s.now;
    u := ReachesLanded(c, start, asked, s1, s.threads, 1, k, row);
  }

  lemma HitKeeps(row: Link, a: Address, m: int, now: int)
    requires Limited(row, a, m)
    ensures Limited(Hit(row, now), a, m) && Hit(row, now).clickCount == row.clickCount + 1
    ensures Hit(row, now).pinHash == row.pinHash
    ensures Hit(row, now).IsExpired(now) <==> Hit(row, now).clickCount >= m
  {
    EndsWithItsClicks(Hit(row, now), a, m, now);
  }

  /** A PIN page reads the row and keeps it in hand, the PIN still to be compared. */
  lemma VerifyStep(c: Config, s: State, a: Address, l: Link)
    requires 2 !in s.threads && Raw(s.links, a.0, a.1) == Some(l) && !l.IsExpired(s.now)
    ensures Enabled(s, VerifyPin(2, a.0, a.1))
    ensures var u := Apply(c, s, VerifyPin(2, a.0, a.1));
            u == s.(threads := s.threads[2 := Holding(l, a.1, true)], grants := u.grants)
  {
  }

  lemma OnlyRowIsRaw(c: Config, start: int, asked: iset<Address>, s: State, a: Address)
    requires Reaches(c, start, asked, s) && "i" in s.links && s.links["i"].id == "i" && HomeOf(s.links["i"]) == a
    ensures Raw(s.links, a.0, a.1) == Some(s.links["i"])
  {
    var es :| Possible(c, start, es) && Asked(es) <= asked && After(c, start, es) == s;
    AlwaysInv(World(asked, Whole), c, start, es);
    RawPrefersTheDomain(s.links, s.born, a.0, a.1);
  }

  lemma ReachesInHand(c: Config, start: int, asked: iset<Address>, s: State, a: Address, m: int) returns (u: State)
    requires Reaches(c, start, asked, s) && 2 !in s.threads
    requires "i" in s.links && Limited(s.links["i"], a, m) && s.links["i"].clickCount < m
    ensures Reaches(c, start, asked, u)
    ensures u == s.(threads := s.threads[2 := Holding(s.links["i"], a.1, true)], grants := u.grants)
  {
    var l := s.links["i"];
    EndsWithItsClicks(l, a, m, s.now);
    OnlyRowIsRaw(c, start, asked, s, a);
    VerifyStep(c, s, a, l);
    u := ReachesOn(c, start, asked, s, VerifyPin(2, a.0, a.1));
  }

  // ---------- beyond the budget ----------

  ghost predicate Overrun(s: State, id: string) {
    && id in s.grants && Budgeted(s.grants[id])
    && Issued(s, id) > s.grants[id].budget.value + s.grants[id].inFlight
  }

  /** One more redirect than the budget of the copy it was served from, with nothing else in flight. */
  lemma ServedOnceMore(c: Config, start: int, asked: iset<Address>, s: State, k: Click, m: int)
    requires Reaches(c, start, asked, s) && "i" in s.links && s.links["i"].clickCount >= m > 0
    requires s.threads == map[1 := Waiting(ClickJob(k))] && k.id == "i"
    requires "i" in s.grants && s.grants["i"] == Grant(Some(m), 0)
    ensures Overrun(s, "i")
  {
    var es :| Possible(c, start, es) && Asked(es) <= asked && After(c, start, es) == s;
    ClicksAreConserved(c, start, es, "i");
    assert Pending(s.threads, "i") == {1};
  }

  lemma NobodyInFlight(id: string)
    ensures InFlight(map[], id) == 0
  {
  }

  /** A lookup finds the link's own entry while asking for another slug, and its click drops two other keys. */
  lemma ReachesOwnOverrun(c: Config, start: int, asked: iset<Address>, a: Address, q: Address) returns (u: State)
    requires Stored(a) && q in asked && OwnKey(q) == OwnKey(a) && q.1 != a.1 && q.1 != OwnKey(a)
    ensures Reaches(c, start, asked, u) && Overrun(u, "i")
  {
    var s, e := ReachesLimited(c, start, asked, a, 1, "");
    var k := Click("i", a.0, q.1, "");
    OneEntryStays(c, e, s.now, q);
    NobodyInFlight("i");
    HitKeeps(e.link, a, 1, s.now);
    var s2 := ReachesClick(c, start, asked, s, a, 1, q, e.link, Hit(e.link, s.now));
    SameSlugSameKey(a, q);
    DeleteElsewhere(e, [], a.0, q.1);
    assert [e] + [] == [e];
    u := ReachesVisit(c, start, asked, s2, a, 1, q, e.link);
    ServedOnceMore(c, start, asked, u, k, 1);
  }

  /** A new entry comes before the one there was, if that stays. */
  lemma SetBefore(c: Config, e: C.Entry, now: int, a: Address, g: string, row: Link) returns (rest: seq<C.Entry>)
    requires e.key != FormatCacheKey(a.0, g)
    ensures C.Set([e], c.capacity, now, a.0, g, row) == [C.Entry(FormatCacheKey(a.0, g), row, now)] + rest
    ensures forall x :: x in rest ==> x == e
  {
    assert !C.Has([e], FormatCacheKey(a.0, g));
    rest := C.Set([e], c.capacity, now, a.0, g, row)[1..];
  }

  lemma Overwritten(c: Config, e: C.Entry, now: int, a: Address, row: Link)
    requires e.key == OwnKey(a)
    ensures C.Set([e], c.capacity, now, a.0, a.1, row) == [C.Entry(OwnKey(a), row, now)]
  {
    assert [e][0].key == OwnKey(a) && [e][1..] == [];
  }

  /** A link with a PIN and two clicks is read by a PIN page, which keeps it in hand while the PIN is removed. */
  lemma ReachesUnpinned(c: Config, start: int, asked: iset<Address>, a: Address)
    returns (u: State, e: C.Entry, held: Link)
    requires Stored(a)
    ensures Reaches(c, start, asked, u) && Quiet(u) && u.cache == [e] && u.now == start
    ensures e.key == OwnKey(a) && e.cachedAt == start && Limited(e.link, a, 2) && e.link.clickCount == 0
    ensures !e.link.HasPin() && "i" in u.links && u.links["i"] == e.link && held.id == "i" && held.domain == a.0
    ensures held.HasPin()
    ensures u.threads == map[2 := Holding(held, a.1, true)]
  {
    var s, first := ReachesLimited(c, start, asked, a, 2, "pin");
    held := first.link;
    var s1 := ReachesInHand(c, start, asked, s, a, 2);
    var l := held.(pinHash := "", updatedAt := start);
    u := ReachesEdited(c, start, asked, s1, UNPIN, l);
    e := C.Entry(OwnKey(a), l, start);
    Overwritten(c, first, start, a, l);
  }

  /** Which leaves a copy under a stray key. */
  lemma StrayCopy(c: Config, now: int, a: Address, q: Address, e: C.Entry, row: Link) returns (rest: seq<C.Entry>)
    requires Limited(row, a, 2) && row.clickCount == 1 && e.key == OwnKey(a)
    requires Stored(a) && a.0 != "" && Tries(q, OwnKey(a)) && q.1 != a.1
    ensures Refreshed([e], c.capacity, now, Click("i", a.0, q.1, ""), row) == [C.Entry(Refiled(a, q), row, now)] + rest
    ensures forall x :: x in rest ==> x.key == OwnKey(a)
  {
    EndsWithItsClicks(row, a, 2, now);
    StrayKeyIsLonger(a, q);
    rest := SetBefore(c, e, now, a, q.1, row);
  }

  lemma ReachesMistaken(c: Config, start: int, asked: iset<Address>, s: State, a: Address, q: Address, e: C.Entry,
                        row: Link) returns (u: State)
    requires Reaches(c, start, asked, s) && Quiet(s) && 1 !in s.threads && q in asked && Tries(q, e.key)
    requires s.cache == [e] && e.cachedAt == s.now && "i" in s.links && row == Hit(s.links["i"], s.now)
    requires Limited(e.link, a, 2) && e.link.clickCount == 0 && !e.link.HasPin()
    ensures Reaches(c, start, asked, u)
    ensures u == s.(links := s.links["i" := row], grants := u.grants, issued := u.issued,
                    cache := Refreshed([e], c.capacity, s.now, Click("i", a.0, q.1, ""), row))
  {
    OneEntryStays(c, e, s.now, q);
    u := ReachesClick(c, start, asked, s, a, 2, q, e.link, row);
  }

  lemma ReachesStrayCopy(c: Config, start: int, asked: iset<Address>, s: State, a: Address, q: Address, e: C.Entry,
                         row: Link) returns (u: State, rest: seq<C.Entry>)
    requires Stored(a) && a.0 != "" && q in asked && Tries(q, OwnKey(a)) && q.1 != a.1 && e.key == OwnKey(a)
    requires Reaches(c, start, asked, s) && Quiet(s) && 1 !in s.threads
    requires s.cache == [e] && e.cachedAt == s.now && "i" in s.links && row == Hit(s.links["i"], s.now)
    requires Limited(e.link, a, 2) && e.link.clickCount == 0 && !e.link.HasPin()
    requires Limited(row, a, 2) && row.clickCount == 1
    ensures Reaches(c, start, asked, u)
    ensures u == s.(links := s.links["i" := row], grants := u.grants, issued := u.issued,
                    cache := [C.Entry(Refiled(a, q), row, s.now)] + rest)
    ensures forall x :: x in rest ==> x.key == OwnKey(a)
  {
    u := ReachesMistaken(c, start, asked, s, a, q, e, row);
    rest := StrayCopy(c, s.now, a, q, e, row);
  }

  /** The PIN page's visitor gets the PIN right and takes the last click. */
  lemma ReachesSpent(c: Config, start: int, asked: iset<Address>, s: State, a: Address, row: Link, held: Link)
    returns (u: State)
    requires Reaches(c, start, asked, s) && Quiet(s) && s.now == start && "i" in s.links && s.links["i"] == row
    requires s.threads == map[2 := Holding(held, a.1, true)]
    requires held.id == "i" && held.domain == a.0 && held.HasPin() && Limited(row, a, 2) && row.clickCount == 1
    ensures Reaches(c, start, asked, u) && Idle(u) && u.now == start
    ensures "i" in u.links && u.links["i"].clickCount == 2 && u.cache == C.Delete(s.cache, a.0, a.1)
  {
    var k := Click("i", a.0, a.1, "");
    var issued := ServeStep(c, s, map[], 2, held, a.1, true);
    var s1 := s.(threads := map[2 := Waiting(ClickJob(k))], issued := issued);
    ReachesStep(c, start, asked, s, 2, ANY, s1);
    HitKeeps(row, a, 2, start);
    u := ReachesLanded(c, start, asked, s1, map[], 2, k, Hit(row, start));
  }

  /** Of which the stray copy does not hear. */
  lemma ReachesStrayOverrun(c: Config, start: int, asked: iset<Address>, a: Address, q: Address, r: Address)
    returns (u: State)
    requires Stored(a) && a.0 != "" && q in asked && Tries(q, OwnKey(a)) && q.1 != a.1
    requires r in asked && Tries(r, Refiled(a, q))
    ensures Reaches(c, start, asked, u) && Overrun(u, "i")
  {
    var s0, e, held := ReachesUnpinned(c, start, asked, a);
    var row := Hit(e.link, start);
    HitKeeps(e.link, a, 2, start);
    var s, rest := ReachesStrayCopy(c, start, asked, s0, a, q, e, row);
    var stray := C.Entry(Refiled(a, q), row, start);
    var s1 := ReachesSpent(c, start, asked, s, a, stray.link, held);
    StrayKeyIsLonger(a, q);
    assert |OwnKey(a)| > |a.1|;
    DeleteElsewhere(stray, rest, a.0, a.1);
    OneEntryStays(c, stray, start, r);
    NobodyInFlight("i");
    u := ReachesVisit(c, start, asked, s1, a, 2, r, stray.link);
    ServedOnceMore(c, start, asked, u, Click("i", a.0, r.1, ""), 2);
  }

  lemma ReachesOverrun(c: Config, start: int, asked: iset<Address>, a: Address) returns (u: State)
    requires Stored(a) && Leaks(asked, a)
    ensures Reaches(c, start, asked, u) && Overrun(u, "i")
  {
    if Strays(asked, a) {
      var q, r :| q in asked && Tries(q, OwnKey(a)) && q.1 != a.1 && r in asked && Tries(r, Refiled(a, q));
      StrayIsOfADomain(asked, a);
      u := ReachesStrayOverrun(c, start, asked, a, q, r);
    } else {
      var q :| q in asked && OwnKey(q) == OwnKey(a) && q.1 != a.1 && q.1 != OwnKey(a);
      u := ReachesOwnOverrun(c, start, asked, a, q);
    }
  }

  // ---------- exactly ----------

  lemma WriterBirths(c: Config, s: State, t: Tid, o: Oracle, id: string)
    requires t in s.threads && IsWriter(s.threads[t])
    ensures var born := WriterStep(c, s, t, o).born;
            id in born && id !in s.born ==> s.threads[t].Chosen? && born[id] == HomeOf(s.threads[t].link)
    ensures !s.threads[t].Chosen? ==> WriterStep(c, s, t, o).born == s.born
  {
    if s.threads[t].Locked? {
      BeginThreads(s, t, s.threads[t].job, o, id);
    } else if s.threads[t].Reread? || s.threads[t].Loaded? || s.threads[t].Doomed? {
      OthersInsertNothing(c, s, t, o);
    } else if !s.threads[t].Chosen? {
      OthersWriteNoRows(c, s, t, o);
    }
  }

  lemma WriterBears(w: World, c: Config, s: State, t: Tid, o: Oracle, id: string)
    requires Inv(w, c, s) && t in s.threads && IsWriter(s.threads[t])
    requires (id in s.born ==> Stored(s.born[id])) && id in WriterStep(c, s, t, o).born
    ensures Stored(WriterStep(c, s, t, o).born[id])
  {
    assert PcOk(w, s.links, s.born, s.now, s.threads[t]);
    WriterBirths(c, s, t, o, id);
    WriterRows(w, c, s, t, o, id);
  }

  lemma StepBears(w: World, c: Config, s: State, e: Event, id: string)
    requires Inv(w, c, s) && Enabled(s, e) && (id in s.born ==> Stored(s.born[id])) && id in Apply(c, s, e).born
    ensures Stored(Apply(c, s, e).born[id])
  {
    if ByWriter(s, e) {
      WriterBears(w, c, s, e.t, e.oracle, id);
    } else {
      RowsOutsideTheLock(c, s, e);
    }
  }

  /** Every link was created at an address that can be stored. */
  lemma {:induction false} BornIsStored(c: Config, start: int, es: seq<Event>, id: string)
    requires Possible(c, start, es) && id in After(c, start, es).born
    ensures Stored(After(c, start, es).born[id])
  {
    if es != [] {
      var n := |es| - 1;
      if id in After(c, start, es[..n]).born {
        BornIsStored(c, start, es[..n], id);
      }
      AlwaysInv(World(Asked(es[..n]), Whole), c, start, es[..n]);
      StepBears(World(Asked(es[..n]), Whole), c, After(c, start, es[..n]), es[n], id);
    }
  }

  ghost predicate BudgetsHold(c: Config, start: int, asked: iset<Address>) {
    forall s, id :: Reaches(c, start, asked, s) ==> !Overrun(s, id)
  }

  lemma UnleakedIsBounded(c: Config, start: int, asked: iset<Address>, s: State, id: string)
    requires (forall a :: Stored(a) ==> !Leaks(asked, a)) && Reaches(c, start, asked, s)
    ensures !Overrun(s, id)
  {
    var es :| Possible(c, start, es) && Asked(es) <= asked && After(c, start, es) == s;
    if id in s.born {
      BornIsStored(c, start, es, id);
    }
    AlwaysAccounted(World(asked, Standing), c, start, es, id);
  }

  /** Whatever addresses are asked for, no run serves a link beyond the budget of its last grant and the clicks
      in flight just before it exactly when no link leaks. */
  lemma BudgetsHoldExactlyWhenNothingLeaks(c: Config, start: int, asked: iset<Address>)
    ensures BudgetsHold(c, start, asked) <==> forall a :: Stored(a) ==> !Leaks(asked, a)
  {
    if a :| Stored(a) && Leaks(asked, a) {
      var u := ReachesOverrun(c, start, asked, a);
    } else {
      forall s, id | Reaches(c, start, asked, s) ensures !Overrun(s, id) {
        UnleakedIsBounded(c, start, asked, s, id);
      }
    }
  }
}
