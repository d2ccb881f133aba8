/** The account of every click: none is lost, and how far a click budget can be overrun. */
module LinkStoreClicks {
  import opened Links
  import opened LinkKeys
  import opened LinkStore
  import opened LinkStoreInvariant
  import opened LinkStoreSteps
  import opened LinkStoreTheorems
  import opened LinkStoreBudgets

  function Clicks(s: State, id: string): int
    requires id in s.links
  {
    s.links[id].clickCount
  }

  predicate Budgeted(g: Grant) {
    g.budget.Some? && g.budget.value > 0
  }

  /** Whoever is handed the link is handed a copy that knows whether its budget is spent. */
  ghost predicate Exact(w: World, s: State, id: string) {
    id in s.born ==> !Leaks(w.asked, s.born[id])
  }

  /** The row has clicks left, out of the budget the copy states. */
  predicate Affordable(links: Table, l: Link) {
    l.id in links && l.maxClicks == links[l.id].maxClicks && !links[l.id].BudgetSpent()
  }

  /** The account of one link: what was issued is counted or pending; and what was issued or may still
      be stays within the budget of the last grant plus what was in flight just before it. */
  ghost predicate AccountOk(w: World, s: State, id: string) {
    && (id !in s.born ==> Issued(s, id) == 0)
    && (id in s.links ==> Issued(s, id) == Clicks(s, id) + |Pending(s.threads, id)|)
    && (Exact(w, s, id) && id in s.grants && Budgeted(s.grants[id]) ==>
          Issued(s, id) + |Held(s.threads, id)| <= s.grants[id].budget.value + s.grants[id].inFlight)
  }

  lemma PendingAfter(threads: map<Tid, Pc>, t: Tid, pc: Pc, id: string)
    ensures Pending(threads[t := pc], id)
            == if IsPending(pc, id) then Pending(threads, id) + {t} else Pending(threads, id) - {t}
    ensures Held(threads[t := pc], id) == if IsHeld(pc, id) then Held(threads, id) + {t} else Held(threads, id) - {t}
    ensures Pending(threads - {t}, id) == Pending(threads, id) - {t}
    ensures Held(threads - {t}, id) == Held(threads, id) - {t}
  {
  }

  /** How the numbers of pending and held clicks change when one thread moves on. */
  lemma CountsAfter(threads: map<Tid, Pc>, t: Tid, pc: Pc, id: string)
    ensures var p := if t in threads && IsPending(threads[t], id) then 1 else 0;
            var h := if t in threads && IsHeld(threads[t], id) then 1 else 0;
            && |Pending(threads[t := pc], id)| == |Pending(threads, id)| - p + (if IsPending(pc, id) then 1 else 0)
            && |Held(threads[t := pc], id)| == |Held(threads, id)| - h + (if IsHeld(pc, id) then 1 else 0)
            && |Pending(threads - {t}, id)| == |Pending(threads, id)| - p
            && |Held(threads - {t}, id)| == |Held(threads, id)| - h
  {
    PendingAfter(threads, t, pc, id);
    Toggle(Pending(threads, id), t);
    Toggle(Held(threads, id), t);
  }

  lemma Toggle(s: set<Tid>, t: Tid)
    ensures |s + {t}| == |s| + (if t in s then 0 else 1)
    ensures |s - {t}| == |s| - (if t in s then 1 else 0)
  {
    if t in s {
      assert s + {t} == s && s == (s - {t}) + {t};
    } else {
      assert s - {t} == s;
    }
  }

  // ---------- the account under each step ----------

  /** Handing out a live link while its counter is below the budget. */
  lemma GrantKeepsAccount(w: World, s: State, u: State, t: Tid, l: Link, slug: string, viaPin: bool, id: string)
    requires AccountOk(w, s, id) && l.id in s.born
    requires u.links == s.links && u.born == s.born && u.issued == s.issued && u.grants == s.grants
    requires u.threads == s.threads
    requires Exact(w, s, id) && l.id == id ==> Affordable(s.links, l)
    requires t in s.threads ==> s.threads[t].Answered?
    ensures AccountOk(w, Granted(u, t, l, slug, viaPin), id)
  {
    CountsAfter(s.threads, t, Holding(l, slug, viaPin), id);
  }

  lemma ServeKeepsAccount(w: World, c: Config, s: State, t: Tid, o: Oracle, id: string)
    requires Inv(w, c, s) && AccountOk(w, s, id) && t in s.threads && s.threads[t].Holding?
    ensures AccountOk(w, FreeStep(s, t, o), id)
  {
    assert PcOk(w, s.links, s.born, s.now, s.threads[t]);
    var Holding(l, g, _) := s.threads[t];
    CountsAfter(s.threads, t, Waiting(ClickJob(Click(l.id, l.domain, g, o.variant))), id);
  }

  /** A thread moves on without issuing, holding or counting a click. */
  lemma MoveKeepsAccount(w: World, s: State, s': State, t: Tid, id: string)
    requires AccountOk(w, s, id)
    requires s'.issued == s.issued && s'.grants == s.grants
    requires id in s.born ==> id in s'.born && s'.born[id] == s.born[id]
    requires s'.threads == s.threads - {t} || (t in s'.threads && s'.threads == s.threads[t := s'.threads[t]])
    requires t in s'.threads ==> !IsHeld(s'.threads[t], id)
    requires t in s.threads ==> !IsHeld(s.threads[t], id)
    requires id in s'.links ==>
               id in s.links || (s'.links[id].clickCount == 0 && Issued(s, id) == 0 && Pending(s.threads, id) == {})
    requires id in s'.links && id in s.links ==>
      s'.links[id].clickCount + (if t in s'.threads && IsPending(s'.threads[t], id) then 1 else 0) ==
      s.links[id].clickCount + (if t in s.threads && IsPending(s.threads[t], id) then 1 else 0)
    requires id in s'.links && id !in s.links ==> t in s'.threads && !IsPending(s'.threads[t], id)
    ensures AccountOk(w, s', id)
  {
    if t in s'.threads {
      CountsAfter(s.threads, t, s'.threads[t], id);
    } else {
      CountsAfter(s.threads, t, Leaving, id);
    }
  }

  lemma FoundIsAffordable(w: World, c: Config, s: State, t: Tid)
    requires w.mode.Standing? && Inv(w, c, s) && BudgetsOk(w.asked, s)
    requires t in s.threads && s.threads[t].Answered? && s.threads[t].answer.Found?
    ensures var l := s.threads[t].answer.link; l.id in s.born && (Exact(w, s, l.id) ==> Affordable(s.links, l))
  {
    assert PcOk(w, s.links, s.born, s.now, s.threads[t]);
    assert HeldHonest(w.asked, s.links, s.threads[t]);
  }

  lemma ReleaseKeepsAccount(w: World, c: Config, s: State, t: Tid, id: string)
    requires w.mode.Standing? && Inv(w, c, s) && BudgetsOk(w.asked, s) && AccountOk(w, s, id)
    requires t in s.threads && s.threads[t].Answered? && s.threads[t].answer.Found?
    ensures AccountOk(w, ReaderStep(c, s, t), id)
  {
    FoundIsAffordable(w, c, s, t);
    var Answered(_, g, answer, _) := s.threads[t];
    GrantKeepsAccount(w, s, s.(readers := s.readers - {t}), t, answer.link, g, false, id);
  }

  /** What a step of thread t leaves to the account: nothing is issued, held or re-queued. */
  predicate QuietStep(s: State, s': State, t: Tid, id: string) {
    && s'.issued == s.issued && s'.grants == s.grants
    && (s'.threads == s.threads - {t} || (t in s'.threads && s'.threads == s.threads[t := s'.threads[t]]))
    && (t in s'.threads ==> !IsHeld(s'.threads[t], id) && !IsPending(s'.threads[t], id))
  }

  lemma CacheReaderIsQuiet(c: Config, s: State, t: Tid, id: string)
    requires t in s.threads && (s.threads[t].Looking? || s.threads[t].Dropping? || s.threads[t].Publishing?)
    ensures var s' := ReaderStep(c, s, t);
            QuietStep(s, s', t, id) && s'.links == s.links && s'.born == s.born
  {
  }

  lemma TableReaderIsQuiet(c: Config, s: State, t: Tid, id: string)
    requires t in s.threads && (s.threads[t].Judging? || s.threads[t].Reading? || s.threads[t].ReadingRoot?)
    ensures var s' := ReaderStep(c, s, t);
            QuietStep(s, s', t, id) && s'.links == s.links && s'.born == s.born
  {
  }

  lemma ReaderIsQuiet(c: Config, s: State, t: Tid, id: string)
    requires t in s.threads && IsReader(s.threads[t])
    requires s.threads[t].Answered? ==> !s.threads[t].answer.Found?
    ensures var s' := ReaderStep(c, s, t);
            QuietStep(s, s', t, id) && s'.links == s.links && s'.born == s.born
  {
    if s.threads[t].Looking? || s.threads[t].Dropping? || s.threads[t].Publishing? {
      CacheReaderIsQuiet(c, s, t, id);
    } else if !s.threads[t].Answered? {
      TableReaderIsQuiet(c, s, t, id);
    }
  }

  lemma ReaderKeepsAccount(w: World, c: Config, s: State, t: Tid, id: string)
    requires AccountOk(w, s, id) && t in s.threads && IsReader(s.threads[t])
    requires s.threads[t].Answered? ==> !s.threads[t].answer.Found?
    ensures AccountOk(w, ReaderStep(c, s, t), id)
  {
    ReaderIsQuiet(c, s, t, id);
    MoveKeepsAccount(w, s, ReaderStep(c, s, t), t, id);
  }

  lemma WriterKeepsAccount(w: World, c: Config, s: State, t: Tid, o: Oracle, id: string)
    requires Inv(w, c, s) && AccountOk(w, s, id) && t in s.threads && IsWriter(s.threads[t])
    ensures AccountOk(w, WriterStep(c, s, t, o), id)
  {
    var s' := WriterStep(c, s, t, o);
    if id in s.born {
      RowsUnderTheLock(w, c, s, t, o, id);
    } else {
      NothingBeforeBirth(w, c, s, id);
    }
    assert PcOk(w, s.links, s.born, s.now, s.threads[t]);
    WriterThreads(c, s, t, o, id);
    WriterRows(w, c, s, t, o, id);
    MoveKeepsAccount(w, s, s', t, id);
  }

  /** No click is pending for an id that was never created. */
  lemma NothingBeforeBirth(w: World, c: Config, s: State, id: string)
    requires Inv(w, c, s) && id !in s.born
    ensures Pending(s.threads, id) == {} && Held(s.threads, id) == {} && id !in s.links
  {
    forall t | t in s.threads ensures !IsPending(s.threads[t], id) && !IsHeld(s.threads[t], id) {
      assert PcOk(w, s.links, s.born, s.now, s.threads[t]);
    }
  }

  lemma ClickWriterThreads(c: Config, s: State, t: Tid, o: Oracle, id: string)
    requires t in s.threads && (s.threads[t].Reread? || s.threads[t].Chosen?)
    ensures QuietStep(s, WriterStep(c, s, t, o), t, id)
  {
  }

  lemma RowWriterThreads(c: Config, s: State, t: Tid, o: Oracle, id: string)
    requires t in s.threads && (s.threads[t].Loaded? || s.threads[t].Doomed?)
    ensures QuietStep(s, WriterStep(c, s, t, o), t, id)
  {
  }

  lemma PublisherThreads(c: Config, s: State, t: Tid, o: Oracle, id: string)
    requires t in s.threads && (s.threads[t].Inserted? || s.threads[t].Written? || s.threads[t].Removed?)
    ensures QuietStep(s, WriterStep(c, s, t, o), t, id)
  {
  }

  /** No step under the lock issues, holds or re-queues a click. */
  lemma WriterThreads(c: Config, s: State, t: Tid, o: Oracle, id: string)
    requires t in s.threads && IsWriter(s.threads[t])
    ensures QuietStep(s, WriterStep(c, s, t, o), t, id)
  {
    if s.threads[t].Locked? {
      BeginThreads(s, t, s.threads[t].job, o, id);
    } else if s.threads[t].Reread? || s.threads[t].Chosen? {
      ClickWriterThreads(c, s, t, o, id);
    } else if s.threads[t].Loaded? || s.threads[t].Doomed? {
      RowWriterThreads(c, s, t, o, id);
    } else if s.threads[t].Inserted? || s.threads[t].Written? || s.threads[t].Removed? {
      PublisherThreads(c, s, t, o, id);
    }
  }

  lemma ChosenStartsAtZero(c: Config, s: State, t: Tid, o: Oracle, id: string)
    requires t in s.threads && s.threads[t].Chosen? && s.threads[t].link.clickCount == 0
    requires s.threads[t].link.id !in s.born
    ensures var s' := WriterStep(c, s, t, o);
            && (id in s.born ==> id in s'.born && s'.born[id] == s.born[id])
            && (id in s'.links && id !in s.born && id !in s.links ==> t in s'.threads && s'.links[id].clickCount == 0)
  {
  }

  lemma OthersInsertNothing(c: Config, s: State, t: Tid, o: Oracle)
    requires t in s.threads && (s.threads[t].Reread? || s.threads[t].Loaded? || s.threads[t].Doomed?)
    ensures WriterStep(c, s, t, o).links.Keys <= s.links.Keys && WriterStep(c, s, t, o).born == s.born
  {
  }

  /** A new row starts with no clicks. */
  lemma WriterRows(w: World, c: Config, s: State, t: Tid, o: Oracle, id: string)
    requires TableOk(s.links, s.born) && t in s.threads && IsWriter(s.threads[t])
    requires WriterOk(w, s.links, s.born, s.threads[t])
    ensures var s' := WriterStep(c, s, t, o);
            && (id in s.born ==> id in s'.born && s'.born[id] == s.born[id])
            && (id in s'.links && id !in s.born ==> t in s'.threads && s'.links[id].clickCount == 0)
  {
    if s.threads[t].Locked? {
      BeginThreads(s, t, s.threads[t].job, o, id);
    } else if s.threads[t].Chosen? {
      ChosenStartsAtZero(c, s, t, o, id);
    } else if WritesRows(s.threads[t]) {
      OthersInsertNothing(c, s, t, o);
    } else {
      OthersWriteNoRows(c, s, t, o);
    }
  }

  lemma BeginThreads(s: State, t: Tid, job: Job, o: Oracle, id: string)
    ensures var s' := Begin(s, t, job, o);
            && s'.issued == s.issued && s'.grants == s.grants && s'.born == s.born && s'.links.Keys == s.links.Keys
            && t in s'.threads && s'.threads == s.threads[t := s'.threads[t]]
            && !IsHeld(s'.threads[t], id) && !IsPending(s'.threads[t], id)
  {
  }

  lemma GoKeepsAccount(w: World, c: Config, s: State, t: Tid, o: Oracle, id: string)
    requires w.mode.Standing? && Inv(w, c, s) && BudgetsOk(w.asked, s) && AccountOk(w, s, id) && Enabled(s, Go(t, o))
    ensures AccountOk(w, Apply(c, s, Go(t, o)), id)
  {
    if s.threads[t].Answered? && s.threads[t].answer.Found? {
      ReleaseKeepsAccount(w, c, s, t, id);
    } else if IsReader(s.threads[t]) {
      ReaderKeepsAccount(w, c, s, t, id);
    } else if IsWriter(s.threads[t]) {
      WriterKeepsAccount(w, c, s, t, o, id);
    } else if s.threads[t].Holding? {
      ServeKeepsAccount(w, c, s, t, o, id);
    } else {
      MoveKeepsAccount(w, s, FreeStep(s, t, o), t, id);
    }
  }

  lemma VerifyKeepsAccount(w: World, c: Config, s: State, t: Tid, d: string, g: string, id: string)
    requires Inv(w, c, s) && AccountOk(w, s, id) && t !in s.threads
    ensures AccountOk(w, Apply(c, s, VerifyPin(t, d, g)), id)
  {
    RawPrefersTheDomain(s.links, s.born, d, g);
    if Raw(s.links, d, g).Some? && !Raw(s.links, d, g).value.IsExpired(s.now) {
      GrantKeepsAccount(w, s, s, t, Raw(s.links, d, g).value, g, true, id);
    }
  }

  lemma OutsideKeepsAccount(w: World, c: Config, s: State, e: Event, id: string)
    requires AccountOk(w, s, id) && (e.Tick? || e.FolderDeleted? || e.OwnerAdopted?)
    ensures AccountOk(w, Apply(c, s, e), id)
  {
    RowsOutsideTheLock(c, s, e);
    assert id in s.links ==> Same(s.links[id], Apply(c, s, e).links[id]);
  }

  lemma StepKeepsAccount(w: World, c: Config, s: State, e: Event, id: string)
    requires w.mode.Standing? && Inv(w, c, s) && BudgetsOk(w.asked, s) && AccountOk(w, s, id) && Enabled(s, e)
    ensures AccountOk(w, Apply(c, s, e), id)
  {
    match e
    case Arrive(t, pc) => MoveKeepsAccount(w, s, Apply(c, s, e), t, id);
    case VerifyPin(t, d, g) => VerifyKeepsAccount(w, c, s, t, d, g, id);
    case Go(t, o) => GoKeepsAccount(w, c, s, t, o, id);
    case _ => OutsideKeepsAccount(w, c, s, e, id);
  }

  lemma {:induction false} AlwaysAccounted(w: World, c: Config, start: int, es: seq<Event>, id: string)
    requires Possible(c, start, es) && Asked(es) <= w.asked && w.mode.Standing?
    ensures AccountOk(w, After(c, start, es), id)
  {
    if es != [] {
      var n := |es| - 1;
      assert Asked(es[..n]) <= Asked(es);
      AlwaysAccounted(w, c, start, es[..n], id);
      AlwaysInv(w, c, start, es[..n]);
      SpentIsKnown(w.asked, c, start, es[..n]);
      StepKeepsAccount(w, c, After(c, start, es[..n]), es[n], id);
    }
  }

  // ---------- what it means ----------

  /** In every run, every click issued for a live link is either in its counter or still pending: no update
      and no other click overwrites one. */
  lemma ClicksAreConserved(c: Config, start: int, es: seq<Event>, id: string)
    requires Possible(c, start, es) && id in After(c, start, es).links
    ensures var s := After(c, start, es); s.links[id].clickCount == Issued(s, id) - |Pending(s.threads, id)|
  {
    AlwaysAccounted(World(Asked(es), Standing), c, start, es, id);
  }

  /** The redirects served for a link that does not leak stay within the budget of its last grant plus the
      clicks in flight just before that grant; if every click lands before the next grant, within the budget
      itself. */
  lemma OvershootIsBounded(c: Config, start: int, es: seq<Event>, id: string)
    requires Possible(c, start, es) && id in After(c, start, es).grants && Budgeted(After(c, start, es).grants[id])
    requires id in After(c, start, es).born ==> !Leaks(Asked(es), After(c, start, es).born[id])
    ensures var s := After(c, start, es); Issued(s, id) <= s.grants[id].budget.value + s.grants[id].inFlight
  {
    AlwaysAccounted(World(Asked(es), Standing), c, start, es, id);
  }
}
