/** How long guessing takes and how many guesses overlap into a lock, over every run of verifications. */
module PinTheorems {
  import opened PinModel
  import opened PinRuns

  // ---------- the deadline ----------

  /** No step moves a link's lock deadline earlier while the link is remembered. */
  lemma DeadlineNeverEarlier(c: Config, start: int, es: seq<Event>, e: Event, link: string)
    requires Proper(c.rules) && Possible(c, start, es) && Enabled(c, After(c, start, es), e)
    requires var s := After(c, start, es);
             link in s.table && s.table[link].until.Some? && link in Apply(c, s, e).table
    ensures var s := After(c, start, es);
            var later := Apply(c, s, e).table[link];
            later.until.Some? && later.until.value >= s.table[link].until.value
  {
    var s := After(c, start, es);
    AlwaysInv(c, start, es);
    assert RecordOk(c.rules, s.table[link], s.now);
    if e.Wrong? {
      if s.flying[e.t].link == link {
        WaitGrows(c.rules, s.table[link].failures, s.table[link].failures + 1);
      } else {
        OthersStay(c.rules, s.table, s.flying[e.t].link, s.now, link);
      }
    }
  }

  // ---------- who passes a lock ----------

  /** When the lock set by the k-th wrong PIN runs out. */
  function Release(r: Rules, l: seq<Attempt>, k: nat): int
    requires Proper(r) && 1 <= k <= |l|
  {
    l[k - 1].failedAt + Owed(r, k)
  }

  /** The wrong PINs after the k-th that had been let in before its lock ran out. */
  function EarlyGuesses(r: Rules, l: seq<Attempt>, k: nat): set<nat>
    requires Proper(r) && 1 <= k <= |l|
  {
    set i: nat | k <= i < |l| && l[i].checkedAt < Release(r, l, k)
  }

  /** The verifications under way that had been. */
  function EarlyFlights(r: Rules, s: State, link: string, l: seq<Attempt>, k: nat): set<Tid>
    requires Proper(r) && 1 <= k <= |l|
  {
    set t | t in FlightsOf(s, link) && s.flying[t].checkedAt < Release(r, l, k)
  }

  /** Past each lock slip only those that were under way when it was set, and one of them had set it. */
  ghost predicate Waited(c: Config, s: State)
    requires Proper(c.rules)
  {
    var l := LogOf(s, c.watched);
    Kept(l) ==> forall k :: c.rules.maxTries <= k <= |l| ==>
      |EarlyGuesses(c.rules, l, k)| + |EarlyFlights(c.rules, s, c.watched, l, k)| < c.width
  }

  lemma ReleasesGrow(r: Rules, l: seq<Attempt>, now: int, j: nat, k: nat)
    requires Proper(r) && Ordered(l, now) && 1 <= j <= k <= |l|
    ensures Release(r, l, j) <= Release(r, l, k)
  {
    WaitGrows(r, j, k);
    WaitIsOwed(r, j);
    WaitIsOwed(r, k);
  }

  lemma UnlockedHasWaited(c: Config, s: State, k: nat)
    requires Proper(c.rules) && Inv(c, s) && !IsLocked(s.table, c.watched, s.now) && Kept(LogOf(s, c.watched))
    requires c.rules.maxTries <= k <= |LogOf(s, c.watched)|
    ensures s.now >= Release(c.rules, LogOf(s, c.watched), k)
  {
    var l := LogOf(s, c.watched);
    assert Ordered(l, s.now) && Counted(s.table, c.watched, l, s.now);
    ReleasesGrow(c.rules, l, s.now, k, |l|);
    WaitGrows(c.rules, |l|, |l|);
    WaitIsOwed(c.rules, |l|);
    if c.watched in s.table {
      assert RecordOk(c.rules, s.table[c.watched], s.now);
    }
  }

  /** What happens on other links, or to the clock, changes neither the log nor the flights. */
  lemma ElsewhereKeepsWaited(c: Config, s: State, s': State)
    requires Proper(c.rules) && Waited(c, s) && LogOf(s', c.watched) == LogOf(s, c.watched)
    requires FlightsOf(s', c.watched) == FlightsOf(s, c.watched)
    requires forall t :: t in FlightsOf(s, c.watched) ==> s'.flying[t] == s.flying[t]
    ensures Waited(c, s')
  {
    var l := LogOf(s, c.watched);
    forall k | c.rules.maxTries <= k <= |l|
      ensures EarlyFlights(c.rules, s', c.watched, l, k) == EarlyFlights(c.rules, s, c.watched, l, k)
    {
    }
  }

  /** Whoever is let in has waited for every lock before. */
  lemma BeginKeepsWaited(c: Config, s: State, t: Tid)
    requires Proper(c.rules) && Inv(c, s) && Waited(c, s) && Enabled(c, s, Begin(t, c.watched))
    ensures Waited(c, Apply(c, s, Begin(t, c.watched)))
  {
    var s' := Apply(c, s, Begin(t, c.watched));
    var l := LogOf(s, c.watched);
    if !IsLocked(s.table, c.watched, s.now) && Kept(l) {
      forall k | c.rules.maxTries <= k <= |l|
        ensures EarlyFlights(c.rules, s', c.watched, l, k) == EarlyFlights(c.rules, s, c.watched, l, k)
      {
        UnlockedHasWaited(c, s, k);
      }
    }
  }

  lemma GuessIsEarly(r: Rules, l: seq<Attempt>, a: Attempt, k: nat)
    requires Proper(r) && 1 <= k <= |l|
    ensures |EarlyGuesses(r, l + [a], k)|
            == |EarlyGuesses(r, l, k)| + if a.checkedAt < Release(r, l, k) then 1 else 0
  {
    var m := l + [a];
    assert m[|l|] == a && Release(r, m, k) == Release(r, l, k);
    if a.checkedAt < Release(r, l, k) {
      assert EarlyGuesses(r, m, k) == EarlyGuesses(r, l, k) + {|l|};
    } else {
      assert EarlyGuesses(r, m, k) == EarlyGuesses(r, l, k);
    }
  }

  lemma FlightWasEarly(r: Rules, s: State, s': State, link: string, l: seq<Attempt>, t: Tid, k: nat)
    requires Proper(r) && 1 <= k <= |l| && t in FlightsOf(s, link) && s'.flying == s.flying - {t}
    ensures |EarlyFlights(r, s', link, l, k)|
            == |EarlyFlights(r, s, link, l, k)| - if s.flying[t].checkedAt < Release(r, l, k) then 1 else 0
  {
    assert EarlyFlights(r, s', link, l, k) == EarlyFlights(r, s, link, l, k) - {t};
    if s.flying[t].checkedAt >= Release(r, l, k) {
      assert EarlyFlights(r, s, link, l, k) - {t} == EarlyFlights(r, s, link, l, k);
    }
  }

  /** A wrong PIN moves from the flights to the guesses, as early or as late as it was. */
  lemma WrongMovesEarly(r: Rules, s: State, s': State, link: string, l: seq<Attempt>, a: Attempt, t: Tid, k: nat)
    requires Proper(r) && 1 <= k <= |l| && t in FlightsOf(s, link) && a.checkedAt == s.flying[t].checkedAt
    requires s'.flying == s.flying - {t}
    ensures |EarlyGuesses(r, l + [a], k)| + |EarlyFlights(r, s', link, l + [a], k)|
            == |EarlyGuesses(r, l, k)| + |EarlyFlights(r, s, link, l, k)|
  {
    GuessIsEarly(r, l, a, k);
    FlightWasEarly(r, s, s', link, l, t, k);
    assert Release(r, l + [a], k) == Release(r, l, k);
    assert EarlyFlights(r, s', link, l + [a], k) == EarlyFlights(r, s', link, l, k);
  }

  /** Past the lock it sets come those still under way. */
  lemma NewLockIsWaited(c: Config, s: State, l: seq<Attempt>, t: Tid)
    requires Proper(c.rules) && |FlightsOf(s, c.watched)| <= c.width && t in FlightsOf(s, c.watched) && l != []
    ensures var s' := s.(flying := s.flying - {t});
            |EarlyGuesses(c.rules, l, |l|)| + |EarlyFlights(c.rules, s', c.watched, l, |l|)| < c.width
  {
    var s' := s.(flying := s.flying - {t});
    assert FlightsOf(s', c.watched) == FlightsOf(s, c.watched) - {t};
    assert EarlyGuesses(c.rules, l, |l|) == {};
    FewerIn(EarlyFlights(c.rules, s', c.watched, l, |l|), FlightsOf(s', c.watched));
  }

  lemma FewerIn<T>(a: set<T>, b: set<T>)
    requires a <= b
    ensures |a| <= |b|
  {
    assert b == a + (b - a);
  }

  lemma WrongKeepsWaited(c: Config, s: State, t: Tid)
    requires Proper(c.rules) && Inv(c, s) && Waited(c, s) && t in FlightsOf(s, c.watched)
    ensures Waited(c, Apply(c, s, Wrong(t)))
  {
    var s' := Apply(c, s, Wrong(t));
    var f := s.flying[t];
    var l := LogOf(s, c.watched);
    var a := Attempt(f.checkedAt, s.now, f.link in s.table, Room(s.table, f.link));
    assert LogOf(s', c.watched) == l + [a] && Ordered(l, s.now);
    LogGrows(l, a, s.now);
    if Kept(l + [a]) {
      forall k | c.rules.maxTries <= k <= |l + [a]|
        ensures |EarlyGuesses(c.rules, l + [a], k)| + |EarlyFlights(c.rules, s', c.watched, l + [a], k)| < c.width
      {
        if k <= |l| {
          WrongMovesEarly(c.rules, s, s', c.watched, l, a, t, k);
        } else {
          NewLockIsWaited(c, s, l + [a], t);
          assert EarlyFlights(c.rules, s', c.watched, l + [a], k)
              == EarlyFlights(c.rules, s.(flying := s.flying - {t}), c.watched, l + [a], k);
        }
      }
    }
  }

  lemma StepKeepsWaited(c: Config, s: State, e: Event)
    requires Proper(c.rules) && Inv(c, s) && Waited(c, s) && Enabled(c, s, e)
    ensures Waited(c, Apply(c, s, e))
  {
    var s' := Apply(c, s, e);
    match e
    case Tick(_) => ElsewhereKeepsWaited(c, s, s');
    case Begin(t, link) =>
      if link == c.watched {
        BeginKeepsWaited(c, s, t);
      } else {
        ElsewhereKeepsWaited(c, s, s');
      }
    case Wrong(t) =>
      if s.flying[t].link == c.watched {
        WrongKeepsWaited(c, s, t);
      } else {
        ElsewhereKeepsWaited(c, s, s');
      }
    case Right(t) =>
      if s.flying[t].link != c.watched {
        ElsewhereKeepsWaited(c, s, s');
      } else {
        assert LogOf(s', c.watched) == [];
      }
  }

  lemma {:induction false} AlwaysWaited(c: Config, start: int, es: seq<Event>)
    requires Proper(c.rules) && Possible(c, start, es)
    ensures Waited(c, After(c, start, es))
  {
    if es != [] {
      AlwaysInv(c, start, es[..|es| - 1]);
      AlwaysWaited(c, start, es[..|es| - 1]);
      StepKeepsWaited(c, After(c, start, es[..|es| - 1]), es[|es| - 1]);
    }
  }

  /** With at most `width` verifications of a link in flight, fewer than `width` wrong PINs slip past each lock
      from the maxTries-th wrong PIN on, on every run in which no sweep or success forgets the link. */
  lemma FewPassEachLock(c: Config, start: int, es: seq<Event>, k: nat)
    requires Proper(c.rules) && Possible(c, start, es)
    requires var l := LogOf(After(c, start, es), c.watched); Kept(l) && c.rules.maxTries <= k <= |l|
    ensures |EarlyGuesses(c.rules, LogOf(After(c, start, es), c.watched), k)| < c.width
  {
    AlwaysWaited(c, start, es);
  }

  // ---------- what guessing costs ----------

  function Range(a: nat, b: nat): (s: set<nat>)
    requires a <= b
    ensures |s| == b - a && forall i :: i in s <==> a <= i < b
    decreases b
  {
    if a == b then {} else Range(a, b - 1) + {b - 1}
  }

  /** The wrong PIN that opens the n-th turn, turns being `width` wrong PINs each. */
  function Turn(r: Rules, width: nat, n: nat): nat
    requires Proper(r)
  {
    if n == 0 then r.maxTries - 1 else Turn(r, width, n - 1) + width
  }

  /** The locks set by the openings of the first n turns, one after another. */
  function Cost(r: Rules, width: nat, n: nat): int
    requires Proper(r)
  {
    if n == 0 then 0 else Cost(r, width, n - 1) + Owed(r, Turn(r, width, n - 1) + 1)
  }

  /** A turn on, somebody has waited for the lock. */
  lemma OneTurnWaits(r: Rules, l: seq<Attempt>, now: int, m: nat, width: nat)
    requires Proper(r) && Ordered(l, now) && m + width < |l| && |EarlyGuesses(r, l, m + 1)| < width
    ensures l[m + width].failedAt >= l[m].failedAt + Owed(r, m + 1)
  {
    if forall i :: m < i <= m + width ==> l[i].checkedAt < Release(r, l, m + 1) {
      FewerIn(Range(m + 1, m + width + 1), EarlyGuesses(r, l, m + 1));
    }
  }

  lemma {:induction false} TurnsAddUp(r: Rules, l: seq<Attempt>, now: int, width: nat, n: nat)
    requires Proper(r) && Ordered(l, now) && Turn(r, width, n) < |l|
    requires forall k :: r.maxTries <= k <= |l| ==> |EarlyGuesses(r, l, k)| < width
    ensures Turn(r, width, n) >= r.maxTries - 1
    ensures l[Turn(r, width, n)].failedAt >= l[r.maxTries - 1].failedAt + Cost(r, width, n)
  {
    if n > 0 {
      TurnsAddUp(r, l, now, width, n - 1);
      OneTurnWaits(r, l, now, Turn(r, width, n - 1), width);
    }
  }

  /** With at most `width` verifications of a link in flight, the wrong PIN that opens the n-th turn after the
      maxTries-th comes no sooner than the locks of the turns before add up to, on every run in which no sweep
      or success forgets the link. */
  lemma GuessingTakesTime(c: Config, start: int, es: seq<Event>, n: nat)
    requires Proper(c.rules) && Possible(c, start, es)
    requires var l := LogOf(After(c, start, es), c.watched); Kept(l) && Turn(c.rules, c.width, n) < |l|
    ensures var l := LogOf(After(c, start, es), c.watched);
            && c.rules.maxTries - 1 <= Turn(c.rules, c.width, n)
            && l[Turn(c.rules, c.width, n)].failedAt
               >= l[c.rules.maxTries - 1].failedAt + Cost(c.rules, c.width, n)
  {
    var s := After(c, start, es);
    var l := LogOf(s, c.watched);
    AlwaysInv(c, start, es);
    assert Ordered(l, s.now);
    forall k | c.rules.maxTries <= k <= |l| ensures |EarlyGuesses(c.rules, l, k)| < c.width {
      FewPassEachLock(c, start, es, k);
    }
    TurnsAddUp(c.rules, l, s.now, c.width, n);
  }

  /** Until a lock has run out, fewer than `width` wrong PINs follow the one that set it; so no more than
      maxTries - 1 + width are compared before the first lock has been sat out. */
  lemma GuessesBeforeTheLock(c: Config, start: int, es: seq<Event>, k: nat)
    requires Proper(c.rules) && Possible(c, start, es)
    requires var s := After(c, start, es);
             var l := LogOf(s, c.watched);
             Kept(l) && c.rules.maxTries <= k && (k <= |l| ==> s.now < Release(c.rules, l, k))
    ensures |LogOf(After(c, start, es), c.watched)| <= k - 1 + c.width
  {
    var s := After(c, start, es);
    var l := LogOf(s, c.watched);
    AlwaysInv(c, start, es);
    assert Ordered(l, s.now);
    if k <= |l| {
      FewPassEachLock(c, start, es, k);
      assert EarlyGuesses(c.rules, l, k) == Range(k, |l|);
    }
  }
}
