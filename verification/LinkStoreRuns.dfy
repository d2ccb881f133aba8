/** Runs of the link service built step by step: one goroutine at a time moves, while others may stand by with a
    link in hand or a click pending. A link is created, looked up and clicked, edited or deleted. */
module LinkStoreRuns {
  import opened Wrappers
  import opened Links
  import opened LinkKeys
  import opened LinkStore
  import opened LinkStoreInvariant
  import opened LinkEffects
  import C = CacheModel

  /** Some run that looks up no other addresses than these ends here. */
  ghost predicate Reaches(c: Config, start: int, asked: iset<Address>, s: State) {
    exists es :: Possible(c, start, es) && Asked(es) <= asked && After(c, start, es) == s
  }

  // ---------- one step ----------

  lemma ReachesStart(c: Config, start: int, asked: iset<Address>)
    ensures Reaches(c, start, asked, Init(start))
  {
    assert Possible(c, start, []) && Asked([]) <= asked && After(c, start, []) == Init(start);
  }

  lemma AskedOn(es: seq<Event>, e: Event, asked: iset<Address>)
    requires Asked(es) <= asked && (IsLookup(e) ==> (e.pc.domain, e.pc.slug) in asked)
    ensures Asked(es + [e]) <= asked
  {
    var more := es + [e];
    forall i | 0 <= i < |more| && IsLookup(more[i]) ensures (more[i].pc.domain, more[i].pc.slug) in asked {
      if i < |es| {
        assert more[i] == es[i];
        assert (es[i].pc.domain, es[i].pc.slug) in Asked(es);
      }
    }
  }

  lemma ReachesOn(c: Config, start: int, asked: iset<Address>, s: State, e: Event) returns (s': State)
    requires Reaches(c, start, asked, s) && Enabled(s, e) && (IsLookup(e) ==> (e.pc.domain, e.pc.slug) in asked)
    ensures s' == Apply(c, s, e) && Reaches(c, start, asked, s')
  {
    s' := Apply(c, s, e);
    var es :| Possible(c, start, es) && Asked(es) <= asked && After(c, start, es) == s;
    var more := es + [e];
    assert more[..|more| - 1] == es;
    AskedOn(es, e, asked);
    assert Possible(c, start, more) && After(c, start, more) == s';
  }

  const ANY := Oracle("", "", "", true)

  type Threads = map<Tid, Pc>

  /** Nobody holds a lock. */
  predicate Quiet(s: State) {
    s.writer == None && s.readers == {}
  }

  /** Nobody is inside. */
  predicate Idle(s: State) {
    Quiet(s) && s.threads == map[]
  }

  lemma ReachesArrived(c: Config, start: int, asked: iset<Address>, s: State, t: Tid, pc: Pc) returns (u: State)
    requires Reaches(c, start, asked, s) && t !in s.threads
    requires (pc.Asking? && (pc.domain, pc.slug) in asked) || (pc.Waiting? && !pc.job.ClickJob?)
    requires pc.Waiting? && pc.job.CreateJob? ==> Normal(pc.job.request.domain)
    ensures Reaches(c, start, asked, u) && u == s.(threads := s.threads[t := pc])
  {
    u := ReachesOn(c, start, asked, s, Arrive(t, pc));
  }

  ghost predicate StepsTo(c: Config, s: State, t: Tid, o: Oracle, u: State) {
    t in s.threads && Enabled(s, Go(t, o)) && Apply(c, s, Go(t, o)) == u
  }

  lemma ReachesStep(c: Config, start: int, asked: iset<Address>, s: State, t: Tid, o: Oracle, u: State)
    requires Reaches(c, start, asked, s) && StepsTo(c, s, t, o, u)
    ensures Reaches(c, start, asked, u)
  {
    var v := ReachesOn(c, start, asked, s, Go(t, o));
  }

  // In what follows thread t moves, and `aside` are the threads that stand by.

  lemma LockStep(c: Config, s: State, aside: Threads, t: Tid, job: Job)
    requires Quiet(s) && s.threads == aside[t := Waiting(job)]
    ensures StepsTo(c, s, t, ANY, s.(writer := Some(t), threads := aside[t := Locked(job)]))
  {
    assert s.threads[t := Locked(job)] == aside[t := Locked(job)];
  }

  lemma UnlockStep(c: Config, s: State, aside: Threads, t: Tid)
    requires s.threads == aside[t := Leaving] && t !in aside
    ensures StepsTo(c, s, t, ANY, s.(writer := None, threads := aside))
  {
    assert s.threads - {t} == aside;
  }

  // ---------- a link is created ----------

  /** The one link of the run: never ended, no PIN, no variants. */
  predicate Plain(l: Link, a: Address) {
    && l.id == "i" && HomeOf(l) == a && l.isActive && l.expiresAt.None? && l.maxClicks.None? && l.pinHash == ""
    && l.variants == []
  }

  /** Nobody inside, the one link stored, and cached in copies; the latest was filed under this key. */
  predicate Ready(s: State, a: Address, key: string) {
    && Idle(s) && s.links.Keys == {"i"} && Plain(s.links["i"], a) && "i" in s.born
    && s.links["i"].clickCount >= 0
    && s.cache != [] && s.cache[0].key == key
    && forall e :: e in s.cache ==> Plain(e.link, a) && e.cachedAt == s.now
  }

  lemma ChooseStep(c: Config, s: State, r: CreateRequest, o: Oracle)
    requires s.threads == map[0 := Locked(CreateJob(r))] && s.links == map[] && s.born == map[]
    requires r.accepted && Storable(r.customSlug) && o.id == "i" && Generated(o.slug)
    ensures StepsTo(c, s, 0, o, s.(threads := map[0 := Chosen(Compose("i", r.customSlug, r, s.now))]))
  {
    var pc := Chosen(Compose("i", r.customSlug, r, s.now));
    assert s.threads[0 := pc] == map[0 := pc];
  }

  lemma InsertStep(c: Config, s: State, l: Link)
    requires s.threads == map[0 := Chosen(l)] && s.links == map[] && s.born == map[] && l.id == "i"
    ensures StepsTo(c, s, 0, ANY,
            s.(links := map["i" := l], born := map["i" := HomeOf(l)], threads := map[0 := Inserted(l)]))
  {
    assert s.threads[0 := Inserted(l)] == map[0 := Inserted(l)];
    assert s.links["i" := l] == map["i" := l] && s.born["i" := HomeOf(l)] == map["i" := HomeOf(l)];
  }

  lemma PublishStep(c: Config, s: State, l: Link)
    requires s.threads == map[0 := Inserted(l)]
    ensures StepsTo(c, s, 0, ANY,
            s.(cache := C.Set(s.cache, c.capacity, s.now, l.domain, l.slug, l), threads := map[0 := Leaving]))
  {
    assert s.threads[0 := Leaving] == map[0 := Leaving];
  }

  /** The link of a request for this address and these columns. */
  function Requested(a: Address, fields: Link, now: int): Link {
    Compose("i", a.1, CreateRequest(true, a.0, a.1, None, fields), now)
  }

  lemma ReachesInserted(c: Config, start: int, asked: iset<Address>, a: Address, fields: Link)
    returns (u: State, l: Link)
    requires Stored(a)
    ensures l == Requested(a, fields, start) && Reaches(c, start, asked, u)
    ensures u == Init(start).(writer := Some(0), links := map["i" := l], born := map["i" := a],
            threads := map[0 := Inserted(l)])
  {
    var r := CreateRequest(true, a.0, a.1, None, fields);
    l := Requested(a, fields, start);
    ReachesStart(c, start, asked);
    var s := ReachesArrived(c, start, asked, Init(start), 0, Waiting(CreateJob(r)));
    LockStep(c, s, map[], 0, CreateJob(r));
    var s1 := s.(writer := Some(0), threads := map[0 := Locked(CreateJob(r))]);
    ReachesStep(c, start, asked, s, 0, ANY, s1);
    var o := SomeOracle();
    ChooseStep(c, s1, r, o);
    var s2 := s1.(threads := map[0 := Chosen(l)]);
    ReachesStep(c, start, asked, s1, 0, o, s2);
    InsertStep(c, s2, l);
    u := s2.(links := map["i" := l], born := map["i" := HomeOf(l)], threads := map[0 := Inserted(l)]);
    ReachesStep(c, start, asked, s2, 0, ANY, u);
  }

  /** A fresh id, and a slug the request will not need. */
  lemma SomeOracle() returns (o: Oracle)
    ensures o.id == "i" && Generated(o.slug)
  {
    o := Oracle("i", "22222222", "", true);
  }

  lemma ReachesCached(c: Config, start: int, asked: iset<Address>, a: Address, fields: Link)
    returns (u: State, l: Link)
    requires Stored(a)
    ensures l == Requested(a, fields, start) && Reaches(c, start, asked, u)
    ensures u == Init(start).(links := map["i" := l], born := map["i" := a], cache := [C.Entry(OwnKey(a), l, start)])
  {
    var s;
    s, l := ReachesInserted(c, start, asked, a, fields);
    PublishStep(c, s, l);
    var s1 := s.(cache := C.Set(s.cache, c.capacity, s.now, l.domain, l.slug, l), threads := map[0 := Leaving]);
    ReachesStep(c, start, asked, s, 0, ANY, s1);
    UnlockStep(c, s1, map[], 0);
    u := s1.(writer := None, threads := map[]);
    ReachesStep(c, start, asked, s1, 0, ANY, u);
    assert u.cache == [C.Entry(OwnKey(a), l, start)];
  }

  lemma ReachesCreated(c: Config, start: int, asked: iset<Address>, a: Address) returns (u: State)
    requires Stored(a)
    ensures Reaches(c, start, asked, u) && Ready(u, a, OwnKey(a)) && |u.cache| == 1
    ensures u.links["i"].clickCount == 0 && u.cache[0].link.clickCount == 0
  {
    var l;
    u, l := ReachesCached(c, start, asked, a, BLANK);
  }

  // ---------- it is looked up ----------

  lemma LookStep(c: Config, s: State, aside: Threads, t: Tid, q: Address)
    requires Quiet(s) && s.threads == aside[t := Asking(q.0, q.1)]
    ensures StepsTo(c, s, t, ANY, s.(readers := {t}, threads := aside[t := Looking(q.0, q.1)]))
  {
    assert s.threads[t := Looking(q.0, q.1)] == aside[t := Looking(q.0, q.1)];
  }

  lemma HitStep(c: Config, s: State, aside: Threads, t: Tid, q: Address, l: Link)
    requires s.threads == aside[t := Looking(q.0, q.1)] && C.Get(s.cache, c.ttl, s.now, q.0, q.1).hit == Some(l)
    ensures StepsTo(c, s, t, ANY,
            s.(cache := C.Get(s.cache, c.ttl, s.now, q.0, q.1).list, threads := aside[t := Judging(q.0, q.1, l, true)]))
  {
    assert s.threads[t := Judging(q.0, q.1, l, true)] == aside[t := Judging(q.0, q.1, l, true)];
  }

  lemma JudgeStep(c: Config, s: State, aside: Threads, t: Tid, q: Address, l: Link)
    requires s.threads == aside[t := Judging(q.0, q.1, l, true)] && !l.IsExpired(s.now)
    ensures StepsTo(c, s, t, ANY, s.(threads := aside[t := Answered(q.0, q.1, Found(l), s.now)]))
  {
    var pc := Answered(q.0, q.1, Found(l), s.now);
    assert s.threads[t := pc] == aside[t := pc];
  }

  /** A lookup that tries one of the cached keys finds a copy. */
  lemma SomeCopyIsHit(s: State, c: Config, a: Address, e: C.Entry, q: Address)
    requires e in s.cache && Tries(q, e.key) && forall x :: x in s.cache ==> Plain(x.link, a) && x.cachedAt == s.now
    ensures var r := C.Get(s.cache, c.ttl, s.now, q.0, q.1);
            && r.hit.Some? && Plain(r.hit.value, a)
            && forall x :: x in r.list ==> x in s.cache
  {
    C.HasIsMembership(s.cache, e.key);
    assert C.Has(s.cache, e.key);
    var key := C.HitKey(s.cache, q.0, q.1).value;
    C.WithoutMembers(s.cache, key);
  }

  lemma OneEntryStays(c: Config, e: C.Entry, now: int, q: Address)
    requires Tries(q, e.key) && e.cachedAt == now
    ensures C.Get([e], c.ttl, now, q.0, q.1) == C.Outcome([e], Some(e.link))
  {
    assert [e][0].key == e.key;
    assert [e][1..] == [];
  }

  lemma ReachesAnswerOf(c: Config, start: int, asked: iset<Address>, s: State, t: Tid, q: Address, l: Link)
    returns (u: State)
    requires Reaches(c, start, asked, s) && Quiet(s) && t !in s.threads && q in asked
    requires C.Get(s.cache, c.ttl, s.now, q.0, q.1).hit == Some(l) && !l.IsExpired(s.now)
    ensures Reaches(c, start, asked, u)
    ensures u == s.(readers := {t}, cache := C.Get(s.cache, c.ttl, s.now, q.0, q.1).list,
                    threads := s.threads[t := Answered(q.0, q.1, Found(l), s.now)])
  {
    var aside, r := s.threads, C.Get(s.cache, c.ttl, s.now, q.0, q.1);
    var s1 := ReachesArrived(c, start, asked, s, t, Asking(q.0, q.1));
    LookStep(c, s1, aside, t, q);
    var s2 := s1.(readers := {t}, threads := aside[t := Looking(q.0, q.1)]);
    ReachesStep(c, start, asked, s1, t, ANY, s2);
    HitStep(c, s2, aside, t, q, l);
    var s3 := s2.(cache := r.list, threads := aside[t := Judging(q.0, q.1, l, true)]);
    ReachesStep(c, start, asked, s2, t, ANY, s3);
    JudgeStep(c, s3, aside, t, q, l);
    u := s3.(threads := aside[t := Answered(q.0, q.1, Found(l), s.now)]);
    ReachesStep(c, start, asked, s3, t, ANY, u);
  }

  lemma ReachesAnswer(c: Config, start: int, asked: iset<Address>, s: State, a: Address, e: C.Entry, q: Address)
    returns (u: State, l: Link)
    requires Reaches(c, start, asked, s) && Idle(s) && q in asked && e in s.cache && Tries(q, e.key)
    requires forall x :: x in s.cache ==> Plain(x.link, a) && x.cachedAt == s.now
    ensures Reaches(c, start, asked, u) && Plain(l, a)
    ensures u == s.(readers := {1}, cache := C.Get(s.cache, c.ttl, s.now, q.0, q.1).list,
                    threads := map[1 := Answered(q.0, q.1, Found(l), s.now)])
  {
    SomeCopyIsHit(s, c, a, e, q);
    l := C.Get(s.cache, c.ttl, s.now, q.0, q.1).hit.value;
    u := ReachesAnswerOf(c, start, asked, s, 1, q, l);
  }

  // ---------- and clicked ----------

  lemma ReleaseStep(c: Config, s: State, aside: Threads, t: Tid, q: Address, l: Link, at: int)
    requires s.readers == {t} && s.threads == aside[t := Answered(q.0, q.1, Found(l), at)] && t !in aside
    ensures StepsTo(c, s, t, ANY,
            s.(readers := {}, threads := aside[t := Holding(l, q.1, false)],
               grants := s.grants[l.id := Grant(l.maxClicks, InFlight(aside, l.id))]))
  {
    var u := Apply(c, s, Go(t, ANY));
    assert s.threads - {t} == aside;
    assert u.readers == {} && u.threads == aside[t := Holding(l, q.1, false)];
  }

  lemma ServeStep(c: Config, s: State, aside: Threads, t: Tid, l: Link, g: string, viaPin: bool)
    returns (issued: map<string, nat>)
    requires s.threads == aside[t := Holding(l, g, viaPin)]
    requires if viaPin then l.HasPin() else !l.IsExpired(s.now) && !l.HasPin()
    ensures StepsTo(c, s, t, ANY,
            s.(threads := aside[t := Waiting(ClickJob(Click(l.id, l.domain, g, "")))], issued := issued))
  {
    var u := Apply(c, s, Go(t, ANY));
    issued := u.issued;
    assert u.threads == aside[t := Waiting(ClickJob(Click(l.id, l.domain, g, "")))];
  }

  lemma CountStep(c: Config, s: State, aside: Threads, t: Tid, k: Click, row: Link)
    requires s.threads == aside[t := Locked(ClickJob(k))] && k.id in s.links && row == ClickedOnce(s.links[k.id], s.now)
    ensures StepsTo(c, s, t, ANY, s.(links := s.links[k.id := row], threads := aside[t := Counted(k)]))
  {
    assert s.threads[t := Counted(k)] == aside[t := Counted(k)];
  }

  lemma RereadStep(c: Config, s: State, aside: Threads, t: Tid, k: Click, row: Link)
    requires s.threads == aside[t := Counted(k)] && k.id in s.links && row == s.links[k.id]
    ensures StepsTo(c, s, t, ANY, s.(threads := aside[t := Reread(k, row)]))
  {
    assert s.threads[t := Reread(k, row)] == aside[t := Reread(k, row)];
  }

  lemma TallyStep(c: Config, s: State, aside: Threads, t: Tid, k: Click, row: Link)
    requires s.threads == aside[t := Reread(k, row)] && k.variant == ""
    ensures StepsTo(c, s, t, ANY, s.(threads := aside[t := Tallied(k, row)]))
  {
    assert s.threads[t := Tallied(k, row)] == aside[t := Tallied(k, row)];
  }

  lemma RefreshStep(c: Config, s: State, aside: Threads, t: Tid, k: Click, row: Link)
    requires s.threads == aside[t := Tallied(k, row)]
    ensures StepsTo(c, s, t, ANY,
            s.(cache := Refreshed(s.cache, c.capacity, s.now, k, row), threads := aside[t := Leaving]))
  {
    assert s.threads[t := Leaving] == aside[t := Leaving];
  }

  /** A deletion under another address leaves the entry where it is. */
  lemma DeleteElsewhere(e: C.Entry, rest: seq<C.Entry>, d: string, g: string)
    requires e.key != FormatCacheKey(d, g) && e.key != g
    requires forall x :: x in rest ==> x.key == FormatCacheKey(d, g)
    ensures C.Delete([e] + rest, d, g) == [e]
  {
    OnlyOthers(rest, FormatCacheKey(d, g));
    assert ([e] + rest)[1..] == rest;
    assert C.Without([e] + rest, FormatCacheKey(d, g)) == [e];
    assert [e][1..] == [];
  }

  lemma {:induction false} OnlyOthers(rest: seq<C.Entry>, key: string)
    requires forall x :: x in rest ==> x.key == key
    ensures C.Without(rest, key) == []
  {
    if rest != [] {
      assert rest[0] in rest;
      assert forall x :: x in rest[1..] ==> x in rest;
      OnlyOthers(rest[1..], key);
    }
  }

  /** The redirect leaves its click waiting for the lock. */
  lemma ReachesWaiting(c: Config, start: int, asked: iset<Address>, s: State, aside: Threads, t: Tid, q: Address,
                       l: Link, at: int) returns (u: State)
    requires Reaches(c, start, asked, s) && s.readers == {t} && t !in aside
    requires s.threads == aside[t := Answered(q.0, q.1, Found(l), at)] && !l.IsExpired(s.now) && !l.HasPin()
    ensures Reaches(c, start, asked, u)
    ensures u == s.(readers := {}, threads := aside[t := Waiting(ClickJob(Click(l.id, l.domain, q.1, "")))],
                    grants := s.grants[l.id := Grant(l.maxClicks, InFlight(aside, l.id))], issued := u.issued)
  {
    ReleaseStep(c, s, aside, t, q, l, at);
    var s1 := s.(readers := {}, threads := aside[t := Holding(l, q.1, false)],
                 grants := s.grants[l.id := Grant(l.maxClicks, InFlight(aside, l.id))]);
    ReachesStep(c, start, asked, s, t, ANY, s1);
    var issued := ServeStep(c, s1, aside, t, l, q.1, false);
    u := s1.(threads := aside[t := Waiting(ClickJob(Click(l.id, l.domain, q.1, "")))], issued := issued);
    ReachesStep(c, start, asked, s1, t, ANY, u);
  }

  lemma ReachesCounted(c: Config, start: int, asked: iset<Address>, s: State, aside: Threads, t: Tid, k: Click,
                       row: Link)
    returns (u: State)
    requires Reaches(c, start, asked, s) && Quiet(s) && s.threads == aside[t := Waiting(ClickJob(k))]
    requires k.id in s.links && row == ClickedOnce(s.links[k.id], s.now) && k.variant == ""
    ensures Reaches(c, start, asked, u)
    ensures u == s.(writer := Some(t), links := s.links[k.id := row], threads := aside[t := Tallied(k, row)])
  {
    LockStep(c, s, aside, t, ClickJob(k));
    var s1 := s.(writer := Some(t), threads := aside[t := Locked(ClickJob(k))]);
    ReachesStep(c, start, asked, s, t, ANY, s1);
    CountStep(c, s1, aside, t, k, row);
    var s2 := s1.(links := s.links[k.id := row], threads := aside[t := Counted(k)]);
    ReachesStep(c, start, asked, s1, t, ANY, s2);
    RereadStep(c, s2, aside, t, k, row);
    var s3 := s2.(threads := aside[t := Reread(k, row)]);
    ReachesStep(c, start, asked, s2, t, ANY, s3);
    TallyStep(c, s3, aside, t, k, row);
    u := s3.(threads := aside[t := Tallied(k, row)]);
    ReachesStep(c, start, asked, s3, t, ANY, u);
  }

  /** A pending click is counted, and the cache refreshed under what was asked for. */
  lemma ReachesLanded(c: Config, start: int, asked: iset<Address>, s: State, aside: Threads, t: Tid, k: Click,
                      row: Link)
    returns (u: State)
    requires Reaches(c, start, asked, s) && Quiet(s) && s.threads == aside[t := Waiting(ClickJob(k))] && t !in aside
    requires k.id in s.links && row == ClickedOnce(s.links[k.id], s.now) && k.variant == ""
    ensures Reaches(c, start, asked, u)
    ensures u == s.(links := s.links[k.id := row], cache := Refreshed(s.cache, c.capacity, s.now, k, row),
            threads := aside)
  {
    var s1 := ReachesCounted(c, start, asked, s, aside, t, k, row);
    RefreshStep(c, s1, aside, t, k, row);
    var s2 := s1.(cache := Refreshed(s.cache, c.capacity, s.now, k, row), threads := aside[t := Leaving]);
    ReachesStep(c, start, asked, s1, t, ANY, s2);
    UnlockStep(c, s2, aside, t);
    u := s2.(writer := None, threads := aside);
    ReachesStep(c, start, asked, s2, t, ANY, u);
  }

  /** One lookup that tries the latest key, and its click: the link is filed under what was asked for. */
  lemma ReachesRefiled(c: Config, start: int, asked: iset<Address>, s: State, a: Address, key: string, q: Address)
    returns (u: State)
    requires Reaches(c, start, asked, s) && Ready(s, a, key) && q in asked && Tries(q, key)
    ensures Reaches(c, start, asked, u) && Ready(u, a, Refiled(a, q))
    ensures u.links["i"].clickCount == s.links["i"].clickCount + 1
    ensures u.cache == C.Set(C.Get(s.cache, c.ttl, s.now, q.0, q.1).list, c.capacity, s.now, a.0, q.1, u.links["i"])
  {
    SomeCopyIsHit(s, c, a, s.cache[0], q);
    var s1, l := ReachesAnswer(c, start, asked, s, a, s.cache[0], q);
    var s2 := ReachesWaiting(c, start, asked, s1, map[], 1, q, l, s.now);
    var k := Click("i", a.0, q.1, "");
    var row := ClickedOnce(s.links["i"], s.now);
    u := ReachesLanded(c, start, asked, s2, map[], 1, k, row);
    FiledIsReady(s, u, C.Get(s.cache, c.ttl, s.now, q.0, q.1).list, c, a, q, row);
  }

  lemma FiledIsReady(s: State, u: State, list: seq<C.Entry>, c: Config, a: Address, q: Address, row: Link)
    requires Idle(u) && u.now == s.now && u.links == s.links["i" := row] && u.born == s.born && Plain(row, a)
    requires s.links.Keys == {"i"} && "i" in s.born && row.clickCount >= 0
    requires forall x :: x in list ==> Plain(x.link, a) && x.cachedAt == s.now
    requires u.cache == C.Set(list, c.capacity, s.now, a.0, q.1, row)
    ensures Ready(u, a, Refiled(a, q))
  {
    forall e | e in u.cache ensures Plain(e.link, a) && e.cachedAt == s.now {
      if e != u.cache[0] {
        assert e in u.cache[1..];
        C.WithoutMembers(list, Refiled(a, q));
      }
    }
  }

  lemma {:induction false} ReachesAlong(c: Config, start: int, asked: iset<Address>, a: Address, path: seq<Address>)
    returns (u: State)
    requires Stored(a) && Leads(asked, a, path)
    ensures Reaches(c, start, asked, u) && Ready(u, a, KeyAfter(a, path))
  {
    if path == [] {
      u := ReachesCreated(c, start, asked, a);
    } else {
      var n := |path| - 1;
      u := ReachesAlong(c, start, asked, a, path[..n]);
      u := ReachesRefiled(c, start, asked, u, a, KeyAfter(a, path[..n]), path[n]);
    }
  }

  // ---------- or deleted ----------

  lemma DoomStep(c: Config, s: State, row: Link)
    requires s.threads == map[0 := Locked(DeleteJob("i", "", true))] && "i" in s.links && row == s.links["i"]
    ensures StepsTo(c, s, 0, ANY, s.(threads := map[0 := Doomed(row)]))
  {
    assert s.threads[0 := Doomed(row)] == map[0 := Doomed(row)];
  }

  lemma RemoveStep(c: Config, s: State, row: Link)
    requires s.threads == map[0 := Doomed(row)] && row.id == "i"
    ensures StepsTo(c, s, 0, ANY, s.(links := s.links - {"i"}, threads := map[0 := Removed(row)]))
  {
    assert s.threads[0 := Removed(row)] == map[0 := Removed(row)];
  }

  lemma UncacheStep(c: Config, s: State, row: Link)
    requires s.threads == map[0 := Removed(row)]
    ensures StepsTo(c, s, 0, ANY, s.(cache := C.Delete(s.cache, row.domain, row.slug), threads := map[0 := Leaving]))
  {
    assert s.threads[0 := Leaving] == map[0 := Leaving];
  }

  lemma ReachesDeleted(c: Config, start: int, asked: iset<Address>, s: State, a: Address, key: string)
    returns (u: State)
    requires Reaches(c, start, asked, s) && Ready(s, a, key)
    ensures Reaches(c, start, asked, u)
    ensures u == s.(links := s.links - {"i"}, cache := C.Delete(s.cache, a.0, a.1))
  {
    var job, row := DeleteJob("i", "", true), s.links["i"];
    var s1 := ReachesArrived(c, start, asked, s, 0, Waiting(job));
    LockStep(c, s1, map[], 0, job);
    var s2 := s1.(writer := Some(0), threads := map[0 := Locked(job)]);
    ReachesStep(c, start, asked, s1, 0, ANY, s2);
    DoomStep(c, s2, row);
    var s3 := s2.(threads := map[0 := Doomed(row)]);
    ReachesStep(c, start, asked, s2, 0, ANY, s3);
    u := ReachesUncached(c, start, asked, s3, row);
  }

  lemma ReachesUncached(c: Config, start: int, asked: iset<Address>, s: State, row: Link) returns (u: State)
    requires Reaches(c, start, asked, s) && s.threads == map[0 := Doomed(row)] && row.id == "i"
    ensures Reaches(c, start, asked, u)
    ensures u == s.(writer := None, links := s.links - {"i"}, cache := C.Delete(s.cache, row.domain, row.slug),
            threads := map[])
  {
    RemoveStep(c, s, row);
    var s1 := s.(links := s.links - {"i"}, threads := map[0 := Removed(row)]);
    ReachesStep(c, start, asked, s, 0, ANY, s1);
    UncacheStep(c, s1, row);
    var s2 := s1.(cache := C.Delete(s.cache, row.domain, row.slug), threads := map[0 := Leaving]);
    ReachesStep(c, start, asked, s1, 0, ANY, s2);
    UnlockStep(c, s2, map[], 0);
    u := s2.(writer := None, threads := map[]);
    ReachesStep(c, start, asked, s2, 0, ANY, u);
  }

  // ---------- or edited ----------

  const KEEP := Edit(true, None, None, None, None, None, None, None, None, None, None, None, None, None, None)
  const PAUSE := KEEP.(isActive := Some(false))
  const UNPIN := KEEP.(pinHash := Some(""))

  lemma LoadStep(c: Config, s: State, aside: Threads, e: Edit, l: Link)
    requires s.threads == aside[0 := Locked(UpdateJob("i", e, "", true))] && "i" in s.links
    requires Edited(s.links["i"], e, s.now) == Some(l)
    ensures StepsTo(c, s, 0, ANY, s.(threads := aside[0 := Loaded(l, e)]))
  {
    assert s.threads[0 := Loaded(l, e)] == aside[0 := Loaded(l, e)];
  }

  lemma WriteStep(c: Config, s: State, aside: Threads, e: Edit, l: Link)
    requires s.threads == aside[0 := Loaded(l, e)]
    requires "i" in s.links && l.id == "i" && WriteColumns(s.links["i"], l) == l
    ensures StepsTo(c, s, 0, ANY, s.(links := s.links["i" := l], threads := aside[0 := Written(l)]))
  {
    assert s.threads[0 := Written(l)] == aside[0 := Written(l)];
  }

  lemma RecacheStep(c: Config, s: State, aside: Threads, l: Link)
    requires s.threads == aside[0 := Written(l)]
    ensures StepsTo(c, s, 0, ANY,
            s.(cache := C.Set(s.cache, c.capacity, s.now, l.domain, l.slug, l), threads := aside[0 := Leaving]))
  {
    assert s.threads[0 := Leaving] == aside[0 := Leaving];
  }

  lemma ReachesWritten(c: Config, start: int, asked: iset<Address>, s: State, e: Edit, l: Link) returns (u: State)
    requires Reaches(c, start, asked, s) && Quiet(s) && 0 !in s.threads && "i" in s.links && s.links["i"].id == "i"
    requires Edited(s.links["i"], e, s.now) == Some(l)
    ensures Reaches(c, start, asked, u)
    ensures u == s.(writer := Some(0), links := s.links["i" := l], threads := s.threads[0 := Written(l)])
  {
    var job, aside := UpdateJob("i", e, "", true), s.threads;
    var s1 := ReachesArrived(c, start, asked, s, 0, Waiting(job));
    LockStep(c, s1, aside, 0, job);
    var s2 := s1.(writer := Some(0), threads := aside[0 := Locked(job)]);
    ReachesStep(c, start, asked, s1, 0, ANY, s2);
    LoadStep(c, s2, aside, e, l);
    var s3 := s2.(threads := aside[0 := Loaded(l, e)]);
    ReachesStep(c, start, asked, s2, 0, ANY, s3);
    WritingAnEditStoresIt(s.links["i"], e, s.now);
    WriteStep(c, s3, aside, e, l);
    u := s3.(links := s.links["i" := l], threads := aside[0 := Written(l)]);
    ReachesStep(c, start, asked, s3, 0, ANY, u);
  }

  /** An administrator's edit is written and republished. */
  lemma ReachesEdited(c: Config, start: int, asked: iset<Address>, s: State, e: Edit, l: Link) returns (u: State)
    requires Reaches(c, start, asked, s) && Quiet(s) && 0 !in s.threads && "i" in s.links && s.links["i"].id == "i"
    requires Edited(s.links["i"], e, s.now) == Some(l)
    ensures Reaches(c, start, asked, u)
    ensures u == s.(links := s.links["i" := l], cache := C.Set(s.cache, c.capacity, s.now, l.domain, l.slug, l))
  {
    var s1 := ReachesWritten(c, start, asked, s, e, l);
    RecacheStep(c, s1, s.threads, l);
    var s2 := s1.(cache := C.Set(s.cache, c.capacity, s.now, l.domain, l.slug, l), threads := s.threads[0 := Leaving]);
    ReachesStep(c, start, asked, s1, 0, ANY, s2);
    UnlockStep(c, s2, s.threads, 0);
    u := s2.(writer := None, threads := s.threads);
    ReachesStep(c, start, asked, s2, 0, ANY, u);
  }
}
