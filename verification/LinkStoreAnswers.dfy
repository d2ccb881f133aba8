/** Which lookups every run answers with current rows, whatever else is asked. */
module LinkStoreAnswers {
  import opened Wrappers
  import opened Links
  import opened LinkKeys
  import opened LinkStore
  import opened LinkStoreInvariant
  import opened LinkStoreSteps
  import opened LinkStoreTheorems
  import opened LinkStoreRuns
  import opened LinkStoreAmbiguity
  import opened LinkStoreLone
  import opened LinkStoreOneEntry
  import C = CacheModel

  /** Whoever asks for q is answered with a current row of the domain or of the root, or with nothing when
      neither has one. */
  ghost predicate AnswersAreCurrent(c: Config, start: int, asked: iset<Address>, q: Address) {
    forall s, t :: Reaches(c, start, asked, s) && AnswersTo(s, t, q) ==> IsCurrent(s.links, q, s.threads[t].answer)
  }

  predicate AnswersTo(s: State, t: Tid, q: Address) {
    t in s.threads && s.threads[t].Answered? && (s.threads[t].domain, s.threads[t].slug) == q
  }

  lemma FewerFiles(fewer: iset<Address>, asked: iset<Address>, a: Address, path: seq<Address>)
    requires fewer <= asked && Leads(fewer, a, path)
    ensures Leads(asked, a, path)
  {
    if path != [] {
      FewerFiles(fewer, asked, a, path[..|path| - 1]);
    }
  }

  lemma FewerSure(fewer: iset<Address>, asked: iset<Address>, q: Address)
    requires fewer <= asked && Sure(asked, q)
    ensures Sure(fewer, q)
  {
    forall a, key | Stored(a) && Files(fewer, a, key) && Tries(q, key) ensures !Mistaken(fewer, a) {
      var path :| Leads(fewer, a, path) && KeyAfter(a, path) == key;
      FewerFiles(fewer, asked, a, path);
      assert Files(asked, a, key);
    }
  }

  lemma SureAnswers(c: Config, start: int, asked: iset<Address>, q: Address, s: State, t: Tid)
    requires Reaches(c, start, asked, s) && AnswersTo(s, t, q) && !Ambiguous(q) && Sure(asked, q)
    ensures IsCurrent(s.links, q, s.threads[t].answer)
  {
    var es :| Possible(c, start, es) && Asked(es) <= asked && After(c, start, es) == s;
    FewerSure(Asked(es), asked, q);
    CustomResolveRefinesTheTable(c, start, es, t);
  }

  /** No copy that q might find is a row it may be answered with. */
  predicate Misleads(s: State, q: Address) {
    forall e, id :: e in s.cache && Tries(q, e.key) && id in s.links && Candidate(s.links[id], q) ==>
      !Same(e.link, s.links[id])
  }

  lemma WrongIsNotCurrent(links: Table, q: Address, l: Link)
    requires forall id :: id in links && Candidate(links[id], q) ==> !Same(l, links[id])
    ensures !IsCurrent(links, q, Found(l))
  {
  }

  lemma MisledHit(c: Config, s: State, a: Address, e: C.Entry, q: Address) returns (l: Link)
    requires e in s.cache && Tries(q, e.key) && Misleads(s, q)
    requires forall x :: x in s.cache ==> x.cachedAt == s.now && Plain(x.link, a)
    ensures C.Get(s.cache, c.ttl, s.now, q.0, q.1).hit == Some(l) && Plain(l, a)
    ensures forall id :: id in s.links && Candidate(s.links[id], q) ==> !Same(l, s.links[id])
  {
    C.HasIsMembership(s.cache, e.key);
    var hit := C.Find(s.cache, C.HitKey(s.cache, q.0, q.1).value);
    assert Tries(q, hit.key);
    l := hit.link;
  }

  lemma ReachesWrongAnswer(c: Config, start: int, asked: iset<Address>, s: State, a: Address, e: C.Entry, q: Address)
    returns (u: State)
    requires Reaches(c, start, asked, s) && Idle(s) && q in asked && e in s.cache && Tries(q, e.key)
    requires forall x :: x in s.cache ==> x.cachedAt == s.now && Plain(x.link, a)
    requires Misleads(s, q)
    ensures Reaches(c, start, asked, u) && AnswersTo(u, 1, q) && !IsCurrent(u.links, q, u.threads[1].answer)
  {
    var l := MisledHit(c, s, a, e, q);
    u := ReachesAnswerOf(c, start, asked, s, 1, q, l);
    WrongIsNotCurrent(s.links, q, l);
  }

  lemma OnlyOneIsMisled(s: State, a: Address, q: Address)
    requires s.links.Keys == {"i"} && Plain(s.links["i"], a) && a != q && a != ("", q.1)
    ensures Misleads(s, q)
  {
  }

  lemma AmbiguousIsMisled(c: Config, start: int, asked: iset<Address>, q: Address) returns (u: State)
    requires q in asked && Ambiguous(q)
    ensures Reaches(c, start, asked, u) && AnswersTo(u, 1, q) && !IsCurrent(u.links, q, u.threads[1].answer)
  {
    var a := AmbiguousNamesOne(q);
    var s := ReachesCreated(c, start, asked, a);
    OnlyOneIsMisled(s, a, q);
    assert s.cache[0] in s.cache;
    u := ReachesWrongAnswer(c, start, asked, s, a, s.cache[0], q);
  }

  /** Another domain's link found under a stray key. */
  lemma ElsewhereIsMisled(c: Config, start: int, asked: iset<Address>, q: Address, a: Address, key: string)
    returns (u: State)
    requires q in asked && Stored(a) && a.0 != "" && a.0 != q.0 && Files(asked, a, key) && Tries(q, key)
    ensures Reaches(c, start, asked, u) && AnswersTo(u, 1, q) && !IsCurrent(u.links, q, u.threads[1].answer)
  {
    var path :| Leads(asked, a, path) && KeyAfter(a, path) == key;
    var s := ReachesAlong(c, start, asked, a, path);
    OnlyOneIsMisled(s, a, q);
    assert s.cache[0] in s.cache;
    u := ReachesWrongAnswer(c, start, asked, s, a, s.cache[0], q);
  }

  /** The link's own entry, which the click of a mistaken lookup has not refreshed. */
  lemma OutdatedIsMisled(c: Config, start: int, asked: iset<Address>, q: Address, p: Address) returns (u: State)
    requires q in asked && Stored(q) && q.0 != "" && c.capacity > 1
    requires p in asked && Tries(p, OwnKey(q)) && p.1 != q.1
    ensures Reaches(c, start, asked, u) && AnswersTo(u, 1, q) && !IsCurrent(u.links, q, u.threads[1].answer)
  {
    var s, stray, first := ReachesTwoCopies(c, start, asked, q, p);
    StrayKeyIsLonger(q, p);
    assert first in s.cache;
    assert forall e :: e in s.cache && Tries(q, e.key) ==> e == first;
    u := ReachesWrongAnswer(c, start, asked, s, q, first, q);
  }

  lemma UnsureIsMisled(c: Config, start: int, asked: iset<Address>, q: Address) returns (u: State)
    requires q in asked && !Ambiguous(q) && !Sure(asked, q) && c.capacity > 1
    ensures Reaches(c, start, asked, u) && AnswersTo(u, 1, q) && !IsCurrent(u.links, q, u.threads[1].answer)
  {
    var a, key :| Stored(a) && Files(asked, a, key) && Tries(q, key) && Mistaken(asked, a);
    UnambiguousFindsTheSlug(asked, a, key, q);
    if a.0 == "" {
      RootIsUnmistaken(asked, a);
    }
    if a.0 != q.0 {
      u := ElsewhereIsMisled(c, start, asked, q, a, key);
    } else {
      var p :| p in asked && Tries(p, OwnKey(a)) && p.1 != a.1;
      u := OutdatedIsMisled(c, start, asked, q, p);
    }
  }

  // ---------- in a cache of one entry ----------

  lemma ReachesIsBounded(c: Config, start: int, asked: iset<Address>, s: State)
    requires Reaches(c, start, asked, s)
    ensures C.WellFormed(s.cache, c.capacity)
  {
    var es :| Possible(c, start, es) && Asked(es) <= asked && After(c, start, es) == s;
    CacheIsBounded(c, start, es);
  }

  /** The edit that leaves the link one click. */
  function Limit(n: int): Edit {
    KEEP.(maxClicks := Some(n + 1))
  }

  function Limited(l: Link, now: int): Link {
    l.(maxClicks := Some(l.clickCount + 1), updatedAt := now)
  }

  /** Live, with one click left. */
  predicate AtItsLast(l: Link, a: Address, now: int) {
    && l.id == "i" && HomeOf(l) == a && !l.IsExpired(now) && l.clickCount >= 0 && l.maxClicks == Some(l.clickCount + 1)
    && l.variants == []
  }

  /** A mistaken lookup is served, and its click waits for the lock. */
  lemma ReachesPending(c: Config, start: int, asked: iset<Address>, s: State, a: Address, key: string, p: Address)
    returns (u: State)
    requires Reaches(c, start, asked, s) && Ready(s, a, key) && p in asked && Tries(p, key)
    ensures Reaches(c, start, asked, u) && Quiet(u) && u.now == s.now && u.links == s.links
    ensures u.threads == map[1 := Waiting(ClickJob(Click("i", a.0, p.1, "")))]
  {
    var s1, l := ReachesAnswer(c, start, asked, s, a, s.cache[0], p);
    u := ReachesWaiting(c, start, asked, s1, map[], 1, p, l, s.now);
  }

  /** Meanwhile an edit leaves the link one click, and republishes its own entry. */
  lemma ReachesLimit(c: Config, start: int, asked: iset<Address>, s: State, a: Address) returns (u: State, row: Link)
    requires c.capacity == 1 && Reaches(c, start, asked, s) && Quiet(s) && 0 !in s.threads
    requires s.links.Keys == {"i"} && Plain(s.links["i"], a) && s.links["i"].clickCount >= 0
    ensures Reaches(c, start, asked, u) && Quiet(u) && u.now == s.now && u.threads == s.threads
    ensures u.links.Keys == {"i"} && u.links["i"] == row && u.cache == [C.Entry(OwnKey(a), row, s.now)]
    ensures AtItsLast(row, a, s.now)
  {
    row := Limited(s.links["i"], s.now);
    u := ReachesEdited(c, start, asked, s, Limit(s.links["i"].clickCount), row);
    ReachesIsBounded(c, start, asked, s);
    LoneSet(s.cache, s.now, a.0, a.1, row);
  }

  /** The click that then spends the budget drops two other keys. */
  lemma ReachesSlip(c: Config, start: int, asked: iset<Address>, s: State, a: Address, p: Address, e: C.Entry)
    returns (u: State)
    requires Reaches(c, start, asked, s) && Quiet(s)
    requires s.threads == map[1 := Waiting(ClickJob(Click("i", a.0, p.1, "")))]
    requires s.cache == [e] && e.key == OwnKey(a) && p.1 != a.1 && p.1 != OwnKey(a)
    requires s.links.Keys == {"i"} && s.links["i"] == e.link && AtItsLast(e.link, a, s.now)
    ensures Reaches(c, start, asked, u) && Idle(u) && u.now == s.now && u.cache == [e]
    ensures forall id :: id in u.links ==> u.links[id].clickCount == e.link.clickCount + 1
  {
    var row := ClickedOnce(e.link, s.now);
    assert row.IsExpired(s.now);
    u := ReachesLanded(c, start, asked, s, map[], 1, Click("i", a.0, p.1, ""), row);
    SameSlugSameKey(a, p);
    DeleteElsewhere(e, [], a.0, p.1);
    assert [e] + [] == [e];
  }

  /** And leaves the link's own entry as the row was before it. */
  lemma SlippedIsMisled(c: Config, start: int, asked: iset<Address>, q: Address, a: Address, key: string, p: Address)
    returns (u: State)
    requires c.capacity == 1 && q in asked && Stored(a) && Tries(q, OwnKey(a))
    requires p in asked && Files(asked, a, key) && Tries(p, key) && p.1 != a.1 && p.1 != OwnKey(a)
    ensures Reaches(c, start, asked, u) && AnswersTo(u, 1, q) && !IsCurrent(u.links, q, u.threads[1].answer)
  {
    var path :| Leads(asked, a, path) && KeyAfter(a, path) == key;
    var s := ReachesAlong(c, start, asked, a, path);
    var s0 := ReachesPending(c, start, asked, s, a, key, p);
    var s1, row := ReachesLimit(c, start, asked, s0, a);
    var e := C.Entry(OwnKey(a), row, s.now);
    var s2 := ReachesSlip(c, start, asked, s1, a, p, e);
    u := ReachesOldAnswer(c, start, asked, s2, q, e);
  }

  lemma ReachesOldAnswer(c: Config, start: int, asked: iset<Address>, s: State, q: Address, e: C.Entry)
    returns (u: State)
    requires Reaches(c, start, asked, s) && Idle(s) && q in asked && Tries(q, e.key)
    requires s.cache == [e] && e.cachedAt == s.now && !e.link.IsExpired(s.now)
    requires forall id :: id in s.links ==> s.links[id].clickCount == e.link.clickCount + 1
    ensures Reaches(c, start, asked, u) && AnswersTo(u, 1, q) && !IsCurrent(u.links, q, u.threads[1].answer)
  {
    OneEntryStays(c, e, s.now, q);
    u := ReachesAnswerOf(c, start, asked, s, 1, q, e.link);
    WrongIsNotCurrent(u.links, q, e.link);
  }

  lemma UnsureAloneIsMisled(c: Config, start: int, asked: iset<Address>, q: Address) returns (u: State)
    requires q in asked && !Ambiguous(q) && !SureAlone(asked, q) && c.capacity == 1
    ensures Reaches(c, start, asked, u) && AnswersTo(u, 1, q) && !IsCurrent(u.links, q, u.threads[1].answer)
  {
    var a, key :| Stored(a) && Files(asked, a, key) && Tries(q, key) && (key != OwnKey(a) || Slips(asked, a));
    if key == OwnKey(a) {
      var p, found :| p in asked && Files(asked, a, found) && Tries(p, found) && p.1 != a.1 && p.1 != OwnKey(a);
      u := SlippedIsMisled(c, start, asked, q, a, found, p);
    } else {
      UnambiguousFindsTheSlug(asked, a, key, q);
      if a.0 == "" {
        RootKeepsKey(asked, a, key);
      }
      u := ElsewhereIsMisled(c, start, asked, q, a, key);
    }
  }

  lemma SureAloneAnswers(c: Config, start: int, asked: iset<Address>, q: Address, s: State, t: Tid)
    requires c.capacity == 1 && Reaches(c, start, asked, s) && AnswersTo(s, t, q) && !Ambiguous(q)
    requires SureAlone(asked, q)
    ensures IsCurrent(s.links, q, s.threads[t].answer)
  {
    var es :| Possible(c, start, es) && Asked(es) <= asked && After(c, start, es) == s;
    var w := World(asked, Whole);
    AlwaysInv(w, c, start, es);
    OneEntryIsLive(asked, c, start, es);
    assert PcOk(w, s.links, s.born, s.now, s.threads[t]) && HeldLive(asked, s.links, s.threads[t]);
    var answer := s.threads[t].answer;
    if !answer.Missing? {
      HeldAloneAnswers(asked, s.links, s.born, q, answer.link);
      TheRow(s.links, s.born, answer.link.id, answer.link.domain, answer.link.slug);
    }
  }

  lemma HeldAloneAnswers(asked: iset<Address>, links: Table, born: Addresses, q: Address, l: Link)
    requires HeldOk(World(asked, Whole), links, born, q, l) && !Ambiguous(q) && SureAlone(asked, q)
    ensures Candidate(l, q)
  {
    var key :| Files(asked, HomeOf(l), key) && Tries(q, key);
    UnambiguousFindsTheAddress(asked, HomeOf(l), q);
  }

  /** Whatever addresses are asked for, all runs answer this one with current rows exactly when it is unambiguous
      and can find no link that another mistakes; in a cache of one entry, no link by another key than its own,
      and none that slips. */
  lemma AnswersAreCurrentExactly(c: Config, start: int, asked: iset<Address>, q: Address)
    requires q in asked
    ensures AnswersAreCurrent(c, start, asked, q) <==>
            !Ambiguous(q) && if c.capacity == 1 then SureAlone(asked, q) else Sure(asked, q)
  {
    if Ambiguous(q) {
      var u := AmbiguousIsMisled(c, start, asked, q);
    } else if c.capacity == 1 && SureAlone(asked, q) {
      forall s, t | Reaches(c, start, asked, s) && AnswersTo(s, t, q)
        ensures IsCurrent(s.links, q, s.threads[t].answer)
      {
        SureAloneAnswers(c, start, asked, q, s, t);
      }
    } else if c.capacity == 1 {
      var u := UnsureAloneIsMisled(c, start, asked, q);
    } else if Sure(asked, q) {
      forall s, t | Reaches(c, start, asked, s) && AnswersTo(s, t, q)
        ensures IsCurrent(s.links, q, s.threads[t].answer)
      {
        SureAnswers(c, start, asked, q, s, t);
      }
    } else {
      var u := UnsureIsMisled(c, start, asked, q);
    }
  }
}
