/** Requests are not validated. One whose slug spells another link's key makes a click file that link under a
    further key; which keys that can be, and what is lost by it, exactly. */
module LinkStoreAmbiguity {
  import opened Wrappers
  import opened Links
  import opened LinkKeys
  import opened LinkStore
  import opened LinkStoreInvariant
  import opened LinkStoreSteps
  import opened LinkStoreTheorems
  import opened LinkStoreRuns
  import opened LinkStoreLone
  import C = CacheModel

  // ---------- which keys, and what is lost ----------

  /** Some reachable cache holds the link stored at a under this key. */
  ghost predicate CachedUnder(c: Config, start: int, asked: iset<Address>, a: Address, key: string) {
    exists s, e :: Reaches(c, start, asked, s) && e in s.cache && HomeOf(e.link) == a && e.key == key
  }

  /** The keys a link is ever cached under are exactly those some chain of the lookups asked leads to. */
  lemma KeysAreExactlyTheChains(c: Config, start: int, asked: iset<Address>, a: Address, key: string)
    requires Stored(a)
    ensures CachedUnder(c, start, asked, a, key) <==> Files(asked, a, key)
  {
    if CachedUnder(c, start, asked, a, key) {
      var s, e :| Reaches(c, start, asked, s) && e in s.cache && HomeOf(e.link) == a && e.key == key;
      var es :| Possible(c, start, es) && Asked(es) <= asked && After(c, start, es) == s;
      var w := World(asked, Whole);
      AlwaysInv(w, c, start, es);
      assert EntryOk(w, e, s.links, s.born, Stale(Whole, s));
    }
    if Files(asked, a, key) {
      var path :| Leads(asked, a, path) && KeyAfter(a, path) == key;
      var u := ReachesAlong(c, start, asked, a, path);
      assert u.cache[0] in u.cache && HomeOf(u.cache[0].link) == a && u.cache[0].key == key;
    }
  }

  ghost predicate StaysCoherent(c: Config, start: int, asked: iset<Address>) {
    forall s :: Reaches(c, start, asked, s) && s.writer.None? ==> Coherent(s.cache, s.links)
  }

  lemma ReachesIncoherence(c: Config, start: int, asked: iset<Address>, q: Address) returns (u: State)
    requires q in asked && Ambiguous(q)
    ensures Reaches(c, start, asked, u) && u.writer.None? && !Coherent(u.cache, u.links)
  {
    var a := AmbiguousNamesOne(q);
    var s := ReachesCreated(c, start, asked, a);
    u := ReachesRefiled(c, start, asked, s, a, OwnKey(a), q);
    SameSlugSameKey(a, q);
    assert HomeOf(u.cache[0].link) == a by {
      assert u.cache[0] in u.cache;
    }
  }

  /** Whatever addresses are asked for, all runs keep the cache coherent exactly when none of them is ambiguous. */
  lemma CoherentExactlyWhenUnambiguous(c: Config, start: int, asked: iset<Address>)
    ensures StaysCoherent(c, start, asked) <==> forall q :: q in asked ==> !Ambiguous(q)
  {
    if q :| q in asked && Ambiguous(q) {
      var u := ReachesIncoherence(c, start, asked, q);
    } else {
      forall s | Reaches(c, start, asked, s) && s.writer.None? ensures Coherent(s.cache, s.links) {
        var es :| Possible(c, start, es) && Asked(es) <= asked && After(c, start, es) == s;
        CleanRunsAreCoherent(c, start, es);
      }
    }
  }

  lemma CleanRunsAreCoherent(c: Config, start: int, es: seq<Event>)
    requires Possible(c, start, es) && (forall q :: q in Asked(es) ==> !Ambiguous(q))
    requires After(c, start, es).writer.None?
    ensures Coherent(After(c, start, es).cache, After(c, start, es).links)
  {
    var s := After(c, start, es);
    forall e | e in s.cache ensures e.key == OwnKey(HomeOf(e.link)) && LiveCopy(s.links, e.link) {
      EntriesAreFiled(c, start, es, e);
      forall q | q in Asked(es) && Tries(q, OwnKey(HomeOf(e.link))) ensures q.1 == e.link.slug {
        if q.1 != e.link.slug {
          MistakenIsAmbiguous(q, HomeOf(e.link));
        }
      }
      CacheIsCoherent(c, start, es, e);
    }
    forall i | 0 <= i < |s.cache|
      ensures s.cache[i].key == OwnKey(HomeOf(s.cache[i].link)) && LiveCopy(s.links, s.cache[i].link)
    {
      assert s.cache[i] in s.cache;
    }
  }

  // ---------- two copies ----------

  lemma ReachesTwoCopies(c: Config, start: int, asked: iset<Address>, a: Address, q: Address)
    returns (u: State, stray: C.Entry, first: C.Entry)
    requires Stored(a) && a.0 != "" && q in asked && Tries(q, OwnKey(a)) && q.1 != a.1 && c.capacity > 1
    ensures Reaches(c, start, asked, u) && Ready(u, a, Refiled(a, q)) && u.cache == [stray, first]
    ensures first.key == OwnKey(a) && stray.key == Refiled(a, q) && stray.cachedAt == u.now && Plain(stray.link, a)
    ensures first.link.clickCount != u.links["i"].clickCount
  {
    var s := ReachesCreated(c, start, asked, a);
    first := s.cache[0];
    assert s.cache == [first];
    u := ReachesRefiled(c, start, asked, s, a, OwnKey(a), q);
    StrayKeyIsLonger(a, q);
    OneEntryStays(c, first, s.now, q);
    assert !C.Has([first], Refiled(a, q));
    stray := u.cache[0];
    assert u.cache == [stray, first];
    assert stray in u.cache;
  }

  // ---------- deletion ----------

  ghost predicate DeletesAreFinal(c: Config, start: int, asked: iset<Address>) {
    forall s, id, t :: Reaches(c, start, asked, s) && Gone(s, id) ==> !Answers(s, t, id)
  }

  /** A deletion drops neither key a stray copy sits under. */
  lemma StrayOutlivesDelete(cache: seq<C.Entry>, a: Address, q: Address, e: C.Entry)
    requires Stored(a) && a.0 != "" && q.1 != a.1 && e in cache && e.key == Refiled(a, q)
    ensures e in C.Delete(cache, a.0, a.1) && forall x :: x in C.Delete(cache, a.0, a.1) ==> x in cache
  {
    SameSlugSameKey(a, q);
    StoredSlugsHoldNoColon(a.1);
    assert e.key[|a.0|] == ':';
    assert e.key != a.1;
    C.WithoutMembers(cache, OwnKey(a));
    C.WithoutMembers(C.Without(cache, OwnKey(a)), a.1);
  }

  lemma ReachesUndead(c: Config, start: int, asked: iset<Address>, a: Address) returns (u: State)
    requires Stored(a) && Strays(asked, a)
    ensures Reaches(c, start, asked, u) && Gone(u, "i") && Answers(u, 1, "i")
  {
    var q, r :| q in asked && Tries(q, OwnKey(a)) && q.1 != a.1 && r in asked && Tries(r, Refiled(a, q));
    StrayIsOfADomain(asked, a);
    var s := ReachesCreated(c, start, asked, a);
    s := ReachesRefiled(c, start, asked, s, a, OwnKey(a), q);
    var e := s.cache[0];
    StrayOutlivesDelete(s.cache, a, q, e);
    var v := ReachesDeleted(c, start, asked, s, a, Refiled(a, q));
    var l;
    u, l := ReachesAnswer(c, start, asked, v, a, e, r);
  }

  lemma UnstrayedIsNotAnswered(c: Config, start: int, asked: iset<Address>, s: State, id: string, t: Tid)
    requires (forall a :: Stored(a) ==> !Strays(asked, a)) && Reaches(c, start, asked, s) && Gone(s, id)
    ensures !Answers(s, t, id)
  {
    var es :| Possible(c, start, es) && Asked(es) <= asked && After(c, start, es) == s;
    assert es[..|es|] == es;
    if Answers(s, t, id) {
      AnsweredIsStored(c, start, es, t, id);
      FewerStray(Asked(es), asked, s.born[id]);
      DeleteIsFinal(c, start, es, |es|, id, t);
    }
  }

  /** Whatever addresses are asked for, deleted links never come back exactly when no link strays among them. */
  lemma DeletesAreFinalExactlyWhenNothingStrays(c: Config, start: int, asked: iset<Address>)
    ensures DeletesAreFinal(c, start, asked) <==> forall a :: Stored(a) ==> !Strays(asked, a)
  {
    if a :| Stored(a) && Strays(asked, a) {
      var u := ReachesUndead(c, start, asked, a);
    } else {
      forall s, id, t | Reaches(c, start, asked, s) && Gone(s, id) ensures !Answers(s, t, id) {
        UnstrayedIsNotAnswered(c, start, asked, s, id, t);
      }
    }
  }

  lemma AnsweredIsStored(c: Config, start: int, es: seq<Event>, t: Tid, id: string)
    requires Possible(c, start, es) && Answers(After(c, start, es), t, id)
    ensures var born := After(c, start, es).born; id in born && Stored(born[id])
  {
    var w := World(Asked(es), Whole);
    AlwaysInv(w, c, start, es);
    var s := After(c, start, es);
    assert PcOk(w, s.links, s.born, s.now, s.threads[t]);
  }

  lemma FewerStray(fewer: iset<Address>, asked: iset<Address>, a: Address)
    requires fewer <= asked && !Strays(asked, a)
    ensures !Strays(fewer, a)
  {
  }

  // ---------- pausing ----------

  function Paused(l: Link, now: int): Link {
    l.(isActive := false, updatedAt := now)
  }

  /** The link is in the table, and switched off. */
  predicate IsPaused(s: State, id: string) {
    id in s.links && !s.links[id].isActive
  }

  ghost predicate PausesAreFinal(c: Config, start: int, asked: iset<Address>) {
    forall s, id, t :: Reaches(c, start, asked, s) && IsPaused(s, id) && Answers(s, t, id) ==>
      s.threads[t].answer.Ended?
  }

  /** With room for both, the stray copy outlives the refreshing of the link's own entry, and is found. */
  lemma StrayOutlivesPause(c: Config, first: C.Entry, stray: C.Entry, a: Address, q: Address, r: Address, now: int,
                           paused: Link)
    requires Stored(a) && a.0 != "" && Tries(q, OwnKey(a)) && q.1 != a.1 && Tries(r, Refiled(a, q)) && c.capacity > 1
    requires first.key == OwnKey(a) && stray.key == Refiled(a, q) && stray.cachedAt == now
    ensures var cache := C.Set([stray, first], c.capacity, now, a.0, a.1, paused);
            C.Get(cache, c.ttl, now, r.0, r.1).hit == Some(stray.link)
  {
    StrayKeyIsLonger(a, q);
    var own := C.Entry(OwnKey(a), paused, now);
    var cache := C.Set([stray, first], c.capacity, now, a.0, a.1, paused);
    assert [stray, first][1..] == [first] && [first][1..] == [];
    assert C.Has([stray, first], OwnKey(a)) by {
      assert [stray, first][1].key == OwnKey(a);
    }
    assert C.Without([first], OwnKey(a)) == [];
    assert C.Without([stray, first], OwnKey(a)) == [stray] + C.Without([first], OwnKey(a));
    assert cache == [own, stray];
    assert C.Has(cache, stray.key) by {
      assert cache[1].key == stray.key;
    }
    assert cache[1..] == [stray];
    if stray.key != OwnKey(r) {
      assert |OwnKey(r)| > |stray.key|;
      assert !C.Has(cache, OwnKey(r));
    }
  }

  lemma ReachesStrayAnswer(c: Config, start: int, asked: iset<Address>, s: State, stray: C.Entry, first: C.Entry,
                           a: Address, q: Address, r: Address) returns (u: State)
    requires Stored(a) && a.0 != "" && Tries(q, OwnKey(a)) && q.1 != a.1 && r in asked && Tries(r, Refiled(a, q))
    requires c.capacity > 1 && Reaches(c, start, asked, s) && Ready(s, a, Refiled(a, q)) && s.cache == [stray, first]
    requires first.key == OwnKey(a) && stray.key == Refiled(a, q) && stray.cachedAt == s.now && Plain(stray.link, a)
    ensures Reaches(c, start, asked, u) && IsPaused(u, "i") && Answers(u, 1, "i") && u.threads[1].answer.Found?
  {
    var v := ReachesEdited(c, start, asked, s, PAUSE, Paused(s.links["i"], s.now));
    StrayOutlivesPause(c, first, stray, a, q, r, s.now, v.links["i"]);
    u := ReachesAnswerOf(c, start, asked, v, 1, r, stray.link);
  }

  lemma ReachesUnpaused(c: Config, start: int, asked: iset<Address>, a: Address) returns (u: State)
    requires Stored(a) && Strays(asked, a) && c.capacity > 1
    ensures Reaches(c, start, asked, u) && IsPaused(u, "i") && Answers(u, 1, "i") && u.threads[1].answer.Found?
  {
    var q, r :| q in asked && Tries(q, OwnKey(a)) && q.1 != a.1 && r in asked && Tries(r, Refiled(a, q));
    StrayIsOfADomain(asked, a);
    var s, stray, first := ReachesTwoCopies(c, start, asked, a, q);
    u := ReachesStrayAnswer(c, start, asked, s, stray, first, a, q, r);
  }

  lemma UnstrayedIsEnded(c: Config, start: int, asked: iset<Address>, s: State, id: string, t: Tid)
    requires (forall a :: Stored(a) ==> !Strays(asked, a)) && Reaches(c, start, asked, s) && Answers(s, t, id)
    requires IsPaused(s, id)
    ensures s.threads[t].answer.Ended?
  {
    var es :| Possible(c, start, es) && Asked(es) <= asked && After(c, start, es) == s;
    assert es[..|es|] == es;
    AnsweredIsStored(c, start, es, t, id);
    FewerStray(Asked(es), asked, s.born[id]);
    PauseIsFinal(c, start, es, |es|, id, t);
  }

  lemma LoneIsEnded(c: Config, start: int, asked: iset<Address>, s: State, id: string, t: Tid)
    requires c.capacity == 1 && Reaches(c, start, asked, s) && Answers(s, t, id) && IsPaused(s, id)
    ensures s.threads[t].answer.Ended?
  {
    var es :| Possible(c, start, es) && Asked(es) <= asked && After(c, start, es) == s;
    LoneCopiesAgree(c, start, es);
    var w := World(Asked(es), Whole);
    AlwaysInv(w, c, start, es);
    assert PcOk(w, s.links, s.born, s.now, s.threads[t]);
    assert HeldAgrees(s.links, s.threads[t]);
  }

  /** Nor are paused links found alive, exactly then or when the cache has room for one entry only. */
  lemma PausesAreFinalExactly(c: Config, start: int, asked: iset<Address>)
    ensures PausesAreFinal(c, start, asked) <==> c.capacity == 1 || forall a :: Stored(a) ==> !Strays(asked, a)
  {
    if c.capacity == 1 {
      forall s, id, t | Reaches(c, start, asked, s) && IsPaused(s, id) && Answers(s, t, id)
        ensures s.threads[t].answer.Ended?
      {
        LoneIsEnded(c, start, asked, s, id, t);
      }
    } else if a :| Stored(a) && Strays(asked, a) {
      var u := ReachesUnpaused(c, start, asked, a);
    } else {
      forall s, id, t | Reaches(c, start, asked, s) && IsPaused(s, id) && Answers(s, t, id)
        ensures s.threads[t].answer.Ended?
      {
        UnstrayedIsEnded(c, start, asked, s, id, t);
      }
    }
  }

  // ---------- one visitor who asks the wrong thing ----------

  /** What hosts are asked for once their port is cut off, all unambiguous, and one lookup more. */
  ghost function OneMore(q: Address): iset<Address> {
    iset p: Address | p == q || (!Ambiguous(p) && ':' !in p.0)
  }

  /** A host asked for its own link's key. */
  ghost predicate SelfNamed(q: Address) {
    q.0 != "" && Normal(q.0) && |q.1| > |q.0| && q.1[..|q.0|] == q.0 && q.1[|q.0|] == ':' && Storable(q.1[|q.0| + 1..])
  }

  lemma SelfNamedStrays(q: Address)
    requires SelfNamed(q)
    ensures Stored((q.0, q.1[|q.0| + 1..])) && Strays(OneMore(q), (q.0, q.1[|q.0| + 1..]))
  {
    var a := (q.0, q.1[|q.0| + 1..]);
    assert q.1 == OwnKey(a);
    assert Refiled(a, q) == OwnKey(q);
    assert q in OneMore(q) && Tries(q, OwnKey(a)) && q.1 != a.1 && Tries(q, Refiled(a, q));
  }

  lemma OnlySelfNamedStrays(q: Address, a: Address)
    requires ':' !in q.0 && Stored(a) && Strays(OneMore(q), a)
    ensures SelfNamed(q)
  {
    var p, r :| p in OneMore(q) && Tries(p, OwnKey(a)) && p.1 != a.1 && r in OneMore(q) && Tries(r, Refiled(a, p));
    MistakenIsAmbiguous(p, a);
    StrayIsOfADomain(OneMore(q), a);
    var front := FrontGrows(a.0, a.0, p, a.1);
    assert Refiled(a, p) == OwnKey((front, a.1)) && |p.1| > |a.1| by {
      StrayKeyIsLonger(a, p);
    }
    if r == q {
      TwiceTriedIsSelfNamed(q, a);
    } else {
      UnportedAsksOtherwise(r, a, p, front);
    }
  }

  /** A lookup that tries both the link's key and the one that leads to is a host asked for its own key. */
  lemma TwiceTriedIsSelfNamed(q: Address, a: Address)
    requires Stored(a) && a.0 != "" && Tries(q, OwnKey(a)) && q.1 != a.1 && Tries(q, Refiled(a, q))
    ensures SelfNamed(q)
  {
    assert q.0 != "" && |q.0| == |a.0|;
    assert OwnKey(q)[..|q.0|] == Refiled(a, q)[..|a.0|];
    assert OwnKey(q)[..|q.0|] == q.0 && Refiled(a, q)[..|a.0|] == a.0;
    SameSlugSameKey(a, q);
    assert q.1 == a.0 + ":" + a.1;
    assert q.1[..|q.0|] == a.0 && q.1[|q.0| + 1..] == a.1;
  }

  /** No unambiguous lookup on a host without a port tries a stray key. */
  lemma UnportedAsksOtherwise(r: Address, a: Address, p: Address, front: string)
    requires Stored(a) && a.0 != "" && p.1 != a.1 && Spells(Refiled(a, p), front, a.1) && !Ambiguous(r) && ':' !in r.0
    ensures !Tries(r, Refiled(a, p))
  {
    var key := Refiled(a, p);
    KeySplitsAtLastColon(front, a.1, a.0, p.1);
    assert front[|a.0|] == ':';
    if Tries(r, key) {
      assert key == OwnKey((front, a.1));
      if r.1 != a.1 {
        MistakenIsAmbiguous(r, (front, a.1));
      }
      assert |key| > |a.1|;
      KeySplitsAtLastColon(front, a.1, r.0, r.1);
    }
  }

  /** Beside any number of visitors who ask for unambiguous addresses, one lookup more makes some link stray
      exactly when it asks a host for its own key. */
  lemma StraysBesideOneMore(q: Address)
    requires ':' !in q.0
    ensures (forall a :: Stored(a) ==> !Strays(OneMore(q), a)) <==> !SelfNamed(q)
  {
    if SelfNamed(q) {
      SelfNamedStrays(q);
    } else {
      forall a | Stored(a) ensures !Strays(OneMore(q), a) {
        if Strays(OneMore(q), a) {
          OnlySelfNamedStrays(q, a);
        }
      }
    }
  }

  /** Hence that one lookup can bring a deleted link back, or a paused one where there is room for two entries,
      exactly when it asks a host for its own key. */
  lemma FinalBesideOneMore(c: Config, start: int, q: Address)
    requires ':' !in q.0
    ensures DeletesAreFinal(c, start, OneMore(q)) <==> !SelfNamed(q)
    ensures PausesAreFinal(c, start, OneMore(q)) <==> c.capacity == 1 || !SelfNamed(q)
  {
    StraysBesideOneMore(q);
    DeletesAreFinalExactlyWhenNothingStrays(c, start, OneMore(q));
    PausesAreFinalExactly(c, start, OneMore(q));
  }
}
