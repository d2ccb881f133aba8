/** The PIN guard's table as a function of the calls on it. Times and durations are in nanoseconds. */
module PinModel {
  import opened Wrappers

  const SWEEP_AT := 1024
  const HOUR := 3_600_000_000_000
  const DAY := 24 * HOUR
  const LONGEST := 6 * HOUR

  datatype Rules = Rules(maxTries: int, lockFor: int)

  /** `None` is Go's zero time, which is before every clock reading by more than any duration. */
  datatype Record = Record(failures: nat, until: Option<int>, seen: Option<int>)

  const BLANK := Record(0, None, None)

  predicate Proper(r: Rules) {
    r.maxTries >= 1 && r.lockFor > 0
  }

  /** How much longer a link refuses attempts; nothing when it does not. */
  function Remaining(table: map<string, Record>, link: string, now: int): int {
    if link in table && table[link].until.Some? && table[link].until.value > now
    then table[link].until.value - now
    else 0
  }

  predicate IsLocked(table: map<string, Record>, link: string, now: int) {
    Remaining(table, link, now) > 0
  }

  /** A link that refuses attempts does so until the time it says is over, and one that says nothing does not refuse. */
  lemma RemainingIsExact(table: map<string, Record>, link: string, now: int, later: int)
    requires now <= later
    ensures IsLocked(table, link, now) ==> (IsLocked(table, link, later) <==> later < now + Remaining(table, link, now))
    ensures IsLocked(table, link, now) <==>
              exists until :: link in table && table[link].until == Some(until) && now < until
  {
  }

  function Wait(r: Rules, failures: nat): int
    requires Proper(r)
  {
    var wait := r.lockFor * (failures / r.maxTries);
    if wait > LONGEST then LONGEST else wait
  }

  function Stamped(r: Rules, e: Record, now: int): Record
    requires Proper(r)
  {
    var failures := e.failures + 1;
    Record(failures, if failures >= r.maxTries then Some(now + Wait(r, failures)) else e.until, Some(now))
  }

  predicate Stale(e: Record, now: int) {
    && (e.until.Some? ==> now > e.until.value)
    && (e.seen.Some? ==> now - e.seen.value > DAY)
  }

  function Swept(table: map<string, Record>, now: int): map<string, Record> {
    if |table| < SWEEP_AT then table else map link | link in table && !Stale(table[link], now) :: table[link]
  }

  /** A new link's record enters the table blank and the sweep runs before it is stamped. */
  function Failed(r: Rules, table: map<string, Record>, link: string, now: int): map<string, Record>
    requires Proper(r)
  {
    if link in table then table[link := Stamped(r, table[link], now)]
    else
      var swept := Swept(table[link := BLANK], now);
      if link in swept then swept[link := Stamped(r, BLANK, now)] else swept
  }

  /** There is room for a wrong PIN on this link to be remembered. */
  predicate Room(table: map<string, Record>, link: string) {
    link in table || |table| + 1 < SWEEP_AT
  }

  // ---------- what the table remembers ----------

  /** A wrong PIN is recorded exactly when the link is known or the table stays under 1024 links: the sweep
      takes a blank record for one that has been idle forever. */
  lemma RecordedExactlyWhenRoom(r: Rules, table: map<string, Record>, link: string, now: int)
    requires Proper(r)
    ensures link in Failed(r, table, link, now) <==> Room(table, link)
    ensures Room(table, link) ==>
              Failed(r, table, link, now)
                == table[link := Stamped(r, if link in table then table[link] else BLANK, now)]
  {
    if link !in table {
      var grown := table[link := BLANK];
      assert grown.Keys == table.Keys + {link};
      assert |grown| == |table| + 1;
      assert Stale(BLANK, now);
      assert grown[link := Stamped(r, BLANK, now)] == table[link := Stamped(r, BLANK, now)];
    }
  }

  /** Any number of wrong PINs, one after another. */
  function FailedAll(r: Rules, table: map<string, Record>, link: string, times: seq<int>): map<string, Record>
    requires Proper(r)
  {
    if times == [] then table
    else Failed(r, FailedAll(r, table, link, times[..|times| - 1]), link, times[|times| - 1])
  }

  /** Beside 1023 links that stay in use, no number of wrong PINs on another link ever locks it. */
  lemma {:induction false} CrowdedOutNeverLocks(r: Rules, table: map<string, Record>, link: string, times: seq<int>,
                                                now: int)
    requires Proper(r) && link !in table && |table| >= SWEEP_AT - 1
    requires forall i, other :: 0 <= i < |times| && other in table ==> !Stale(table[other], times[i])
    ensures FailedAll(r, table, link, times) == table
    ensures !IsLocked(FailedAll(r, table, link, times), link, now)
  {
    if times != [] {
      var last := times[|times| - 1];
      CrowdedOutNeverLocks(r, table, link, times[..|times| - 1], now);
      RecordedExactlyWhenRoom(r, table, link, last);
      var grown := table[link := BLANK];
      assert grown.Keys == table.Keys + {link};
      assert Swept(grown, last) == table;
    }
  }

  /** Other links' records are stamped by nobody. They go when a new link comes to a table of 1023 or more, exactly
      those whose lock is over and whose last wrong PIN is more than a day ago. */
  lemma OthersStay(r: Rules, table: map<string, Record>, link: string, now: int, other: string)
    requires Proper(r) && other != link
    ensures var after := Failed(r, table, link, now);
            && (other in after ==> other in table && after[other] == table[other])
            && (other in table && other !in after ==> Stale(table[other], now))
    ensures other in table ==>
              var e := table[other];
              other in Failed(r, table, link, now) <==>
                || Room(table, link)
                || (e.until.Some? && now <= e.until.value) || (e.seen.Some? && now <= e.seen.value + DAY)
  {
    if link !in table {
      assert table[link := BLANK].Keys == table.Keys + {link};
      assert |table[link := BLANK]| == |table| + 1;
    }
  }

  // ---------- the wait ----------

  function Least(a: int, b: int): int {
    if a < b then a else b
  }

  /** What the guard promises: nothing below maxTries wrong PINs, and for every maxTries of them one period more, up
      to six hours. */
  function Owed(r: Rules, failures: nat): int
    requires Proper(r)
    decreases failures
  {
    if failures < r.maxTries then 0 else Least(LONGEST, Owed(r, failures - r.maxTries) + r.lockFor)
  }

  /** One round more of wrong PINs lengthens the wait by one period. */
  lemma OneMoreRound(r: Rules, failures: nat)
    requires Proper(r)
    ensures Wait(r, failures + r.maxTries) == Least(LONGEST, Wait(r, failures) + r.lockFor)
    ensures failures < r.maxTries ==> Wait(r, failures) == 0
  {
    var q := failures / r.maxTries;
    OneMoreFits(failures, r.maxTries);
    assert r.lockFor * (q + 1) == r.lockFor * q + r.lockFor;
    if failures < r.maxTries {
      assert q == 0;
    }
  }

  lemma OneMoreFits(n: nat, m: int)
    requires m >= 1
    ensures (n + m) / m == n / m + 1
  {
    var q, p := n / m, (n + m) / m;
    assert n == m * q + n % m;
    assert n + m == m * p + (n + m) % m;
    var d := p - q - 1;
    assert m * d == m * p - m * q - m;
    assert -m < m * d < m;
    OnlyZeroFits(m, d);
  }

  lemma OnlyZeroFits(m: int, d: int)
    requires m >= 1 && -m < m * d < m
    ensures d == 0
  {
    if d >= 1 {
      TimesGrows(m, 1, d);
    } else if d <= -1 {
      TimesGrows(m, d, -1);
    }
  }

  /** The wait is what was promised, after any number of wrong PINs. */
  lemma {:induction false} WaitIsOwed(r: Rules, failures: nat)
    requires Proper(r)
    ensures Wait(r, failures) == Owed(r, failures)
    decreases failures
  {
    if failures >= r.maxTries {
      WaitIsOwed(r, failures - r.maxTries);
      OneMoreRound(r, failures - r.maxTries);
    } else {
      OneMoreRound(r, failures);
    }
  }

  lemma WaitGrows(r: Rules, a: nat, b: nat)
    requires Proper(r) && a <= b
    ensures 0 <= Wait(r, a) <= Wait(r, b) <= LONGEST
  {
    var p, q := a / r.maxTries, b / r.maxTries;
    assert 0 <= p <= q by {
      QuotientGrows(a, b, r.maxTries);
    }
    TimesGrows(r.lockFor, p, q);
  }

  lemma QuotientGrows(a: nat, b: nat, m: int)
    requires a <= b && m >= 1
    ensures 0 <= a / m <= b / m
  {
    var p, q := a / m, b / m;
    assert a == m * p + a % m;
    assert b == m * q + b % m;
    if p > q {
      TimesGrows(m, q + 1, p);
      assert false;
    }
  }

  lemma TimesGrows(k: int, p: int, q: int)
    requires k >= 0 && p <= q
    ensures k * p <= k * q && (p >= 0 ==> k * p >= 0)
  {
    assert k * (q - p) >= 0;
  }

  /** The first lock of all takes the full first period, unless that is more than six hours. */
  lemma FirstLock(r: Rules)
    requires Proper(r)
    ensures Wait(r, r.maxTries) == (if r.lockFor > LONGEST then LONGEST else r.lockFor)
    ensures forall failures: nat :: failures >= r.maxTries ==> Wait(r, failures) > 0
  {
    assert r.maxTries / r.maxTries == 1;
    assert r.lockFor * 1 == r.lockFor;
    forall failures: nat | failures >= r.maxTries ensures Wait(r, failures) > 0 {
      WaitGrows(r, r.maxTries, failures);
    }
  }
}
