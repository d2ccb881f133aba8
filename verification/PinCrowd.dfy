/** A run in which the guard's table is crowded out: 1023 links with one wrong PIN each, and then another link
    whose wrong PINs nobody counts. */
module PinCrowd {
  import opened PinModel
  import opened PinRuns

  /** The i-th of the others, a name longer than the link's own. */
  function Other(link: string, i: nat): (other: string)
    ensures |other| == |link| + i + 1
  {
    link + seq(i + 1, _ => 'x')
  }

  /** n other links, each with one wrong PIN at time t. */
  function Crowd(r: Rules, link: string, n: nat, t: int): (table: map<string, Record>)
    requires Proper(r)
    ensures |table| == n && link !in table
    ensures forall other :: other in table ==> |other| <= |link| + n && !Stale(table[other], t)
  {
    if n == 0 then map[] else Crowd(r, link, n - 1, t)[Other(link, n - 1) := Stamped(r, BLANK, t)]
  }

  /** One verification from start to finish: the link is not locked, and the PIN is wrong. */
  lemma OneGuess(c: Config, start: int, es: seq<Event>, s: State, link: string)
    requires Proper(c.rules) && c.width >= 1 && Possible(c, start, es) && After(c, start, es) == s
    requires s.flying == map[] && !IsLocked(s.table, link, s.now)
    ensures var longer := es + [Begin(0, link)] + [Wrong(0)];
            && Possible(c, start, longer)
            && After(c, start, longer)
               == State(s.now, Failed(c.rules, s.table, link, s.now), map[],
                        s.log[link := LogOf(s, link) + [Attempt(s.now, s.now, link in s.table, Room(s.table, link))]])
  {
    var begun := es + [Begin(0, link)];
    assert FlightsOf(s, link) == {};
    assert begun[..|es|] == es;
    var flying := s.(flying := s.flying[0 := Flight(link, s.now)]);
    assert After(c, start, begun) == flying;
    var longer := begun + [Wrong(0)];
    assert longer[..|begun|] == begun;
    assert flying.flying - {0} == map[];
    assert LogOf(flying, link) == LogOf(s, link);
  }

  lemma {:induction false} CrowdGathers(c: Config, start: int, link: string, n: nat) returns (es: seq<Event>)
    requires Proper(c.rules) && c.width >= 1 && n < SWEEP_AT
    ensures Possible(c, start, es)
    ensures var s := After(c, start, es);
            s.now == start && s.table == Crowd(c.rules, link, n, start) && s.flying == map[] && LogOf(s, link) == []
  {
    if n == 0 {
      es := [];
    } else {
      var shorter := CrowdGathers(c, start, link, n - 1);
      var s := After(c, start, shorter);
      var other := Other(link, n - 1);
      assert other !in s.table;
      RecordedExactlyWhenRoom(c.rules, s.table, other, start);
      OneGuess(c, start, shorter, s, other);
      es := shorter + [Begin(0, other)] + [Wrong(0)];
    }
  }

  /** Beside the crowd a wrong PIN leaves the table as it was. */
  lemma NotRecorded(r: Rules, link: string, t: int)
    requires Proper(r)
    ensures var crowd := Crowd(r, link, SWEEP_AT - 1, t); Failed(r, crowd, link, t) == crowd
  {
    var crowd := Crowd(r, link, SWEEP_AT - 1, t);
    assert FailedAll(r, crowd, link, []) == crowd;
    CrowdedOutNeverLocks(r, crowd, link, [t], t);
    assert [t][..0] == [];
  }

  /** Whatever the rules, a link may see any number of wrong PINs, one at a time and all at one instant, and
      none of them is remembered. */
  lemma {:induction false} CrowdedOutGuessesAreFree(c: Config, start: int, link: string, n: nat)
    returns (es: seq<Event>)
    requires Proper(c.rules) && c.width >= 1
    ensures Possible(c, start, es)
    ensures var s := After(c, start, es); s.now == start && |LogOf(s, link)| == n && link !in s.table
    ensures var s := After(c, start, es); s.table == Crowd(c.rules, link, SWEEP_AT - 1, start) && s.flying == map[]
  {
    if n == 0 {
      es := CrowdGathers(c, start, link, SWEEP_AT - 1);
    } else {
      var shorter := CrowdedOutGuessesAreFree(c, start, link, n - 1);
      NotRecorded(c.rules, link, start);
      OneGuess(c, start, shorter, After(c, start, shorter), link);
      es := shorter + [Begin(0, link)] + [Wrong(0)];
    }
  }
}
