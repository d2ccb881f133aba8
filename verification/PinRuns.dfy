/** PIN verifications as overlapping requests: each asks whether the link is locked, then compares the PIN,
    then reports the outcome, and other requests come in between. */
module PinRuns {
  import opened Wrappers
  import opened PinModel

  /** Of the link that is watched, `width` verifications may be in flight at a time; of others any number. */
  datatype Config = Config(rules: Rules, watched: string, width: nat)

  type Tid = nat

  /** A request that found the link unlocked and is comparing the PIN. */
  datatype Flight = Flight(link: string, checkedAt: int)

  /** A wrong PIN that was compared. `known` says whether the table remembered the link, and `room` whether it
      could. */
  datatype Attempt = Attempt(checkedAt: int, failedAt: int, known: bool, room: bool)

  datatype State = State(
    now: int,
    table: map<string, Record>,
    flying: map<Tid, Flight>,
    log: map<string, seq<Attempt>>) // history: the wrong PINs compared since the link's last right one

  datatype Event =
    | Tick(elapsed: nat)
    | Begin(t: Tid, link: string)
    | Wrong(t: Tid)
    | Right(t: Tid)

  function LogOf(s: State, link: string): seq<Attempt> {
    if link in s.log then s.log[link] else []
  }

  function FlightsOf(s: State, link: string): set<Tid> {
    set t | t in s.flying && s.flying[t].link == link
  }

  function Init(now: int): State {
    State(now, map[], map[], map[])
  }

  predicate Enabled(c: Config, s: State, e: Event) {
    match e
    case Tick(_) => true
    case Begin(t, link) => t !in s.flying && (link == c.watched ==> |FlightsOf(s, link)| < c.width)
    case Wrong(t) => t in s.flying
    case Right(t) => t in s.flying
  }

  function Apply(c: Config, s: State, e: Event): State
    requires Proper(c.rules) && Enabled(c, s, e)
  {
    match e
    case Tick(n) => s.(now := s.now + n)
    case Begin(t, link) =>
      if IsLocked(s.table, link, s.now) then s else s.(flying := s.flying[t := Flight(link, s.now)])
    case Wrong(t) =>
      var f := s.flying[t];
      s.(table := Failed(c.rules, s.table, f.link, s.now), flying := s.flying - {t},
         log := s.log[f.link := LogOf(s, f.link)
           + [Attempt(f.checkedAt, s.now, f.link in s.table, Room(s.table, f.link))]])
    case Right(t) =>
      var f := s.flying[t];
      s.(table := s.table - {f.link}, flying := s.flying - {t}, log := s.log - {f.link})
  }

  predicate Possible(c: Config, start: int, es: seq<Event>)
    requires Proper(c.rules)
    decreases |es|, 0
  {
    es == [] || (Possible(c, start, es[..|es| - 1]) && Enabled(c, After(c, start, es[..|es| - 1]), es[|es| - 1]))
  }

  function After(c: Config, start: int, es: seq<Event>): State
    requires Proper(c.rules) && Possible(c, start, es)
    decreases |es|, 1
  {
    if es == [] then Init(start) else Apply(c, After(c, start, es[..|es| - 1]), es[|es| - 1])
  }

  // ---------- the invariant ----------

  predicate RecordOk(r: Rules, e: Record, now: int)
    requires Proper(r)
  {
    && e.failures >= 1 && e.seen.Some? && e.seen.value <= now
    && e.until == if e.failures >= r.maxTries then Some(e.seen.value + Wait(r, e.failures)) else None
  }

  ghost predicate TableOk(r: Rules, table: map<string, Record>, now: int)
    requires Proper(r)
  {
    forall link :: link in table ==> RecordOk(r, table[link], now)
  }

  ghost predicate Ordered(l: seq<Attempt>, now: int) {
    && (forall i :: 0 <= i < |l| ==> l[i].checkedAt <= l[i].failedAt <= now)
    && forall i, j :: 0 <= i < j < |l| ==> l[i].failedAt <= l[j].failedAt
  }

  /** The first wrong PIN found room, and at every later one the link was still remembered. */
  ghost predicate Kept(l: seq<Attempt>) {
    && (l != [] ==> l[0].room)
    && forall i :: 0 < i < |l| ==> l[i].known
  }

  function LastFailure(l: seq<Attempt>): int
    requires l != []
  {
    l[|l| - 1].failedAt
  }

  /** The record counts the logged failures, unless it was a day old and has been swept. */
  ghost predicate Counted(table: map<string, Record>, link: string, l: seq<Attempt>, now: int) {
    if l == [] then link !in table
    else Kept(l) ==>
      || (link in table && table[link].failures == |l| && table[link].seen == Some(LastFailure(l)))
      || (link !in table && now - LastFailure(l) > DAY)
  }

  ghost predicate LogsOk(s: State) {
    forall link :: Ordered(LogOf(s, link), s.now) && Counted(s.table, link, LogOf(s, link), s.now)
  }

  ghost predicate FlightsOk(c: Config, s: State) {
    && (forall t :: t in s.flying ==> s.flying[t].checkedAt <= s.now)
    && |FlightsOf(s, c.watched)| <= c.width
  }

  ghost predicate Inv(c: Config, s: State)
    requires Proper(c.rules)
  {
    TableOk(c.rules, s.table, s.now) && LogsOk(s) && FlightsOk(c, s)
  }

  lemma FailedKeepsTable(r: Rules, table: map<string, Record>, link: string, now: int)
    requires Proper(r) && TableOk(r, table, now)
    ensures TableOk(r, Failed(r, table, link, now), now)
  {
    var after := Failed(r, table, link, now);
    forall other | other in after ensures RecordOk(r, after[other], now) {
      if other != link {
        OthersStay(r, table, link, now, other);
      } else {
        RecordedExactlyWhenRoom(r, table, link, now);
      }
    }
  }

  lemma LogGrows(l: seq<Attempt>, a: Attempt, now: int)
    requires Ordered(l, now) && a.checkedAt <= now && a.failedAt == now
    ensures Ordered(l + [a], now)
    ensures Kept(l + [a]) <==> Kept(l) && if l == [] then a.room else a.known
  {
    var m := l + [a];
    assert m[|l|] == a && forall i :: 0 <= i < |l| ==> m[i] == l[i];
  }

  /** A wrong PIN on the link itself is counted when the log is kept. */
  lemma WrongCounts(r: Rules, table: map<string, Record>, link: string, l: seq<Attempt>, a: Attempt, now: int)
    requires Proper(r) && Ordered(l, now) && Counted(table, link, l, now)
    requires a.checkedAt <= now && a.failedAt == now && a.known == (link in table) && a.room == Room(table, link)
    ensures Counted(Failed(r, table, link, now), link, l + [a], now)
  {
    LogGrows(l, a, now);
    if Kept(l + [a]) {
      RecordedExactlyWhenRoom(r, table, link, now);
    }
  }

  /** A wrong PIN on another link may only sweep this one's record when that is a day old. */
  lemma OthersWrongCounts(r: Rules, table: map<string, Record>, other: string, link: string, l: seq<Attempt>, now: int)
    requires Proper(r) && Counted(table, link, l, now) && other != link
    ensures Counted(Failed(r, table, other, now), link, l, now)
  {
    OthersStay(r, table, other, now, link);
  }

  lemma WrongKeepsLogs(c: Config, s: State, t: Tid)
    requires Proper(c.rules) && Inv(c, s) && Enabled(c, s, Wrong(t))
    ensures LogsOk(Apply(c, s, Wrong(t)))
  {
    var s' := Apply(c, s, Wrong(t));
    var f := s.flying[t];
    var a := Attempt(f.checkedAt, s.now, f.link in s.table, Room(s.table, f.link));
    forall link ensures Ordered(LogOf(s', link), s'.now) && Counted(s'.table, link, LogOf(s', link), s'.now) {
      assert Ordered(LogOf(s, link), s.now) && Counted(s.table, link, LogOf(s, link), s.now);
      if link == f.link {
        assert LogOf(s', link) == LogOf(s, link) + [a];
        LogGrows(LogOf(s, link), a, s.now);
        WrongCounts(c.rules, s.table, link, LogOf(s, link), a, s.now);
      } else {
        assert LogOf(s', link) == LogOf(s, link);
        OthersWrongCounts(c.rules, s.table, f.link, link, LogOf(s, link), s.now);
      }
    }
  }

  lemma RightKeepsLogs(c: Config, s: State, t: Tid)
    requires Proper(c.rules) && Inv(c, s) && Enabled(c, s, Right(t))
    ensures LogsOk(Apply(c, s, Right(t)))
  {
    var s' := Apply(c, s, Right(t));
    forall link ensures Ordered(LogOf(s', link), s'.now) && Counted(s'.table, link, LogOf(s', link), s'.now) {
      assert Ordered(LogOf(s, link), s.now) && Counted(s.table, link, LogOf(s, link), s.now);
    }
  }

  lemma TickKeepsLogs(s: State, n: nat)
    requires LogsOk(s)
    ensures LogsOk(s.(now := s.now + n))
  {
    var s' := s.(now := s.now + n);
    forall link ensures Ordered(LogOf(s', link), s'.now) && Counted(s'.table, link, LogOf(s', link), s'.now) {
      assert LogOf(s', link) == LogOf(s, link);
      assert Ordered(LogOf(s, link), s.now) && Counted(s.table, link, LogOf(s, link), s.now);
    }
  }

  lemma LandingKeepsFlights(c: Config, s: State, s': State, t: Tid)
    requires FlightsOk(c, s) && s'.flying == s.flying - {t} && s'.now == s.now
    ensures FlightsOk(c, s')
  {
    assert FlightsOf(s', c.watched) == FlightsOf(s, c.watched) - {t};
  }

  lemma BeginKeepsFlights(c: Config, s: State, t: Tid, link: string)
    requires FlightsOk(c, s) && Enabled(c, s, Begin(t, link))
    ensures FlightsOk(c, s.(flying := s.flying[t := Flight(link, s.now)]))
  {
    var s' := s.(flying := s.flying[t := Flight(link, s.now)]);
    if link == c.watched {
      assert FlightsOf(s', link) == FlightsOf(s, link) + {t};
    } else {
      assert FlightsOf(s', c.watched) == FlightsOf(s, c.watched);
    }
  }

  lemma StepKeepsInv(c: Config, s: State, e: Event)
    requires Proper(c.rules) && Inv(c, s) && Enabled(c, s, e)
    ensures Inv(c, Apply(c, s, e))
  {
    var s' := Apply(c, s, e);
    match e
    case Tick(n) => {
      TickKeepsLogs(s, n);
      assert FlightsOf(s', c.watched) == FlightsOf(s, c.watched);
    }
    case Begin(t, link) => {
      BeginKeepsFlights(c, s, t, link);
      assert forall other :: LogOf(s', other) == LogOf(s, other);
    }
    case Wrong(t) => {
      FailedKeepsTable(c.rules, s.table, s.flying[t].link, s.now);
      WrongKeepsLogs(c, s, t);
      LandingKeepsFlights(c, s, s', t);
    }
    case Right(t) => {
      RightKeepsLogs(c, s, t);
      LandingKeepsFlights(c, s, s', t);
    }
  }

  lemma {:induction false} AlwaysInv(c: Config, start: int, es: seq<Event>)
    requires Proper(c.rules) && Possible(c, start, es)
    ensures Inv(c, After(c, start, es))
  {
    if es == [] {
      assert FlightsOf(Init(start), c.watched) == {};
    } else {
      AlwaysInv(c, start, es[..|es| - 1]);
      StepKeepsInv(c, After(c, start, es[..|es| - 1]), es[|es| - 1]);
    }
  }
}
