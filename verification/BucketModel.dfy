/** The token bucket as a function of its calls: a table of lazily refilled entries, swept now and then,
    beside the continuously refilled bucket it stands for. Instants and durations are in nanoseconds. */
module BucketModel {
  const SWEEP_AT := 1024
  const SECOND := 1_000_000_000

  /** `capacity` calls in a burst, refilling from empty to full over `window`, at `rate` tokens a nanosecond. */
  datatype Limits = Limits(capacity: int, window: int, rate: real)

  datatype Entry = Entry(tokens: real, seen: int)

  datatype Call = Call(key: string, now: int)

  function Capacity(l: Limits): real {
    l.capacity as real
  }

  /** What flows into a bucket in `dt`, nanosecond by nanosecond. */
  function Inflow(l: Limits, dt: int): real
    decreases if dt < 0 then -dt else dt
  {
    if dt > 0 then Inflow(l, dt - 1) + l.rate
    else if dt < 0 then Inflow(l, dt + 1) - l.rate
    else 0.0
  }

  predicate Proper(l: Limits) {
    l.capacity >= 1 && l.window > 0 && l.rate > 0.0 && Inflow(l, l.window) == Capacity(l)
  }

  /** An idle entry's age limit: the window, cut down to whole seconds. */
  function FullAfter(l: Limits): (age: int)
    requires Proper(l)
    ensures 0 <= age <= l.window < age + SECOND && age % SECOND == 0
  {
    l.window / SECOND * SECOND
  }

  /** Whoever is older than the age limit is as old as the window: that is a whole number of seconds, or a
      nanosecond more. */
  predicate IdleMeansFull(l: Limits)
    requires Proper(l)
  {
    l.window <= FullAfter(l) + 1
  }

  function Capped(l: Limits, tokens: real): real {
    if tokens > Capacity(l) then Capacity(l) else tokens
  }

  /** What a call finds in the bucket of `key`: a missing entry is a full one. */
  function Level(l: Limits, table: map<string, Entry>, key: string, now: int): real {
    if key in table then Capped(l, table[key].tokens + Inflow(l, now - table[key].seen)) else Capacity(l)
  }

  predicate Allowed(l: Limits, table: map<string, Entry>, c: Call) {
    c.key != "" && (c.key in table ==> Level(l, table, c.key, c.now) >= 1.0)
  }

  predicate Idle(l: Limits, e: Entry, now: int)
    requires Proper(l)
  {
    now - e.seen > FullAfter(l)
  }

  function Swept(l: Limits, table: map<string, Entry>, now: int): map<string, Entry>
    requires Proper(l)
  {
    if |table| < SWEEP_AT then table
    else map key | key in table && !Idle(l, table[key], now) :: table[key]
  }

  /** The table after a call, its sweep performed or skipped. */
  function Next(l: Limits, table: map<string, Entry>, c: Call, sweep: bool): map<string, Entry>
    requires Proper(l)
  {
    if c.key == "" then table
    else if c.key !in table then
      var grown := table[c.key := Entry(Capacity(l) - 1.0, c.now)];
      if sweep then Swept(l, grown, c.now) else grown
    else
      var level := Level(l, table, c.key, c.now);
      table[c.key := Entry(if level < 1.0 then level else level - 1.0, c.now)]
  }

  predicate InOrder(calls: seq<Call>) {
    forall i, j :: 0 <= i < j < |calls| ==> calls[i].now <= calls[j].now
  }

  function Last(calls: seq<Call>): int
    requires calls != []
  {
    calls[|calls| - 1].now
  }

  /** `sweeps[i]` says whether call i sweeps when it may; the program always does. */
  function After(l: Limits, calls: seq<Call>, sweeps: seq<bool>): map<string, Entry>
    requires Proper(l) && |sweeps| == |calls|
  {
    if calls == [] then map[]
    else
      var n := |calls| - 1;
      Next(l, After(l, calls[..n], sweeps[..n]), calls[n], sweeps[n])
  }

  /** The answer to call i of a trace. */
  predicate Answer(l: Limits, calls: seq<Call>, sweeps: seq<bool>, i: nat)
    requires Proper(l) && |sweeps| == |calls| && i < |calls|
  {
    Allowed(l, After(l, calls[..i], sweeps[..i]), calls[i])
  }

  function Always(n: nat): (s: seq<bool>)
    ensures |s| == n && forall i :: 0 <= i < n ==> s[i]
  {
    seq(n, _ => true)
  }

  function Never(n: nat): (s: seq<bool>)
    ensures |s| == n && forall i :: 0 <= i < n ==> !s[i]
  {
    seq(n, _ => false)
  }

  /** Sweeps that drop only full entries, or no sweeps. */
  predicate Harmless(l: Limits, sweeps: seq<bool>)
    requires Proper(l)
  {
    IdleMeansFull(l) || forall i :: 0 <= i < |sweeps| ==> !sweeps[i]
  }

  // ---------- the bucket it stands for ----------

  /** The level at time t of a bucket that fills continuously and is tapped by the calls it can serve:
      no entries, no laziness, no sweeps. */
  function Fluid(l: Limits, calls: seq<Call>, key: string, t: int): real {
    if calls == [] then Capacity(l)
    else
      var n := |calls| - 1;
      Poured(l, Fluid(l, calls[..n], key, calls[n].now), calls[n], key, t)
  }

  /** From what a call found to what there is at time t. */
  function Poured(l: Limits, before: real, c: Call, key: string, t: int): real {
    var left := if c.key == key && key != "" && before >= 1.0 then before - 1.0 else before;
    Capped(l, left + Inflow(l, t - c.now))
  }

  predicate ServedBy(l: Limits, calls: seq<Call>, c: Call) {
    c.key != "" && Fluid(l, calls, c.key, c.now) >= 1.0
  }

  // ---------- inflow ----------

  lemma {:induction false} InflowAdds(l: Limits, a: int, b: int)
    ensures Inflow(l, a) + Inflow(l, b) == Inflow(l, a + b)
    decreases if b < 0 then -b else b
  {
    if b > 0 {
      InflowAdds(l, a, b - 1);
      InflowSteps(l, a + b - 1);
    } else if b < 0 {
      InflowAdds(l, a, b + 1);
      InflowSteps(l, a + b);
    }
  }

  lemma InflowSteps(l: Limits, a: int)
    ensures Inflow(l, a + 1) == Inflow(l, a) + l.rate
  {
  }

  lemma {:induction false} InflowIsPositive(l: Limits, dt: int)
    requires l.rate > 0.0 && dt >= 0
    ensures Inflow(l, dt) >= 0.0 && (dt > 0 ==> Inflow(l, dt) > 0.0)
  {
    if dt > 0 {
      InflowIsPositive(l, dt - 1);
    }
  }

  lemma InflowGrows(l: Limits, a: int, b: int)
    requires l.rate > 0.0 && a <= b
    ensures Inflow(l, a) <= Inflow(l, b) && (a < b ==> Inflow(l, a) < Inflow(l, b))
  {
    InflowAdds(l, a, b - a);
    InflowIsPositive(l, b - a);
  }

  /** It is what the program multiplies. */
  lemma {:induction false} InflowIsProduct(l: Limits, dt: int)
    ensures Inflow(l, dt) == dt as real * l.rate
    decreases if dt < 0 then -dt else dt
  {
    if dt > 0 {
      InflowIsProduct(l, dt - 1);
      OneMoreTimes((dt - 1) as real, l.rate);
    } else if dt < 0 {
      InflowIsProduct(l, dt + 1);
      OneMoreTimes(dt as real, l.rate);
    }
  }

  lemma OneMoreTimes(n: real, r: real)
    ensures (n + 1.0) * r == n * r + r
  {
  }

  // ---------- laziness ----------

  lemma CapThenFill(capacity: real, tokens: real, a: real, b: real)
    requires a >= 0.0 && b >= 0.0
    ensures var once := if tokens + a > capacity then capacity else tokens + a;
            (if once + b > capacity then capacity else once + b)
              == (if tokens + (a + b) > capacity then capacity else tokens + (a + b))
  {
  }

  /** Refilling in two goes is refilling in one. */
  lemma CappedTwice(l: Limits, tokens: real, a: int, b: int)
    requires Proper(l) && a >= 0 && b >= 0
    ensures Capped(l, Capped(l, tokens + Inflow(l, a)) + Inflow(l, b)) == Capped(l, tokens + Inflow(l, a + b))
  {
    InflowAdds(l, a, b);
    InflowIsPositive(l, a);
    InflowIsPositive(l, b);
    CapThenFill(Capacity(l), tokens, Inflow(l, a), Inflow(l, b));
  }

  lemma FluidGrows(l: Limits, calls: seq<Call>, key: string, t: int, u: int)
    requires Proper(l) && t <= u && (calls != [] ==> Last(calls) <= t)
    ensures Fluid(l, calls, key, u) == Capped(l, Fluid(l, calls, key, t) + Inflow(l, u - t))
  {
    InflowIsPositive(l, u - t);
    if calls != [] {
      var n := |calls| - 1;
      var before := Fluid(l, calls[..n], key, calls[n].now);
      var left := if calls[n].key == key && key != "" && before >= 1.0 then before - 1.0 else before;
      CappedTwice(l, left, t - calls[n].now, u - t);
    }
  }

  /** Every entry was stamped in the past and holds between nothing and everything. */
  predicate Sound(l: Limits, table: map<string, Entry>, now: int) {
    "" !in table && forall key :: key in table ==> 0.0 <= table[key].tokens <= Capacity(l) && table[key].seen <= now
  }

  lemma LevelBounds(l: Limits, table: map<string, Entry>, key: string, now: int)
    requires Proper(l) && Sound(l, table, now)
    ensures 0.0 <= Level(l, table, key, now) <= Capacity(l)
  {
    if key in table {
      InflowIsPositive(l, now - table[key].seen);
    }
  }

  lemma NextIsSound(l: Limits, table: map<string, Entry>, c: Call, sweep: bool)
    requires Proper(l) && Sound(l, table, c.now)
    ensures Sound(l, Next(l, table, c, sweep), c.now)
  {
    LevelBounds(l, table, c.key, c.now);
  }

  lemma SoundLater(l: Limits, table: map<string, Entry>, now: int, later: int)
    requires Sound(l, table, now) && now <= later
    ensures Sound(l, table, later)
  {
  }

  lemma {:induction false} AfterIsSound(l: Limits, calls: seq<Call>, sweeps: seq<bool>, now: int)
    requires Proper(l) && |sweeps| == |calls| && InOrder(calls) && (calls != [] ==> Last(calls) <= now)
    ensures Sound(l, After(l, calls, sweeps), now)
  {
    if calls != [] {
      var n := |calls| - 1;
      AfterIsSound(l, calls[..n], sweeps[..n], calls[n].now);
      NextIsSound(l, After(l, calls[..n], sweeps[..n]), calls[n], sweeps[n]);
      SoundLater(l, After(l, calls, sweeps), calls[n].now, now);
    }
  }

  // ---------- sweeping ----------

  /** An idle entry has filled up, so dropping it changes no level. */
  lemma IdleIsFull(l: Limits, e: Entry, now: int, t: int)
    requires Proper(l) && IdleMeansFull(l) && Idle(l, e, now) && e.tokens >= 0.0 && now <= t
    ensures Capped(l, e.tokens + Inflow(l, t - e.seen)) == Capacity(l)
  {
    InflowGrows(l, l.window, t - e.seen);
  }

  lemma SweepKeepsLevels(l: Limits, table: map<string, Entry>, now: int, key: string, t: int)
    requires Proper(l) && IdleMeansFull(l) && Sound(l, table, now) && now <= t
    ensures Level(l, Swept(l, table, now), key, t) == Level(l, table, key, t)
  {
    if key in table && key !in Swept(l, table, now) {
      IdleIsFull(l, table[key], now, t);
    }
  }

  lemma LevelLater(l: Limits, table: map<string, Entry>, key: string, now: int, t: int)
    requires Proper(l) && Sound(l, table, now) && now <= t
    ensures Level(l, table, key, t) == Capped(l, Level(l, table, key, now) + Inflow(l, t - now))
  {
    InflowIsPositive(l, t - now);
    if key in table {
      CappedTwice(l, table[key].tokens, now - table[key].seen, t - now);
    }
  }

  /** What a call leaves in its own bucket. */
  function Left(l: Limits, table: map<string, Entry>, c: Call, key: string): real {
    var before := Level(l, table, key, c.now);
    if c.key == key && Allowed(l, table, c) then before - 1.0 else before
  }

  lemma TapLevel(l: Limits, table: map<string, Entry>, c: Call, key: string, t: int)
    requires Proper(l) && Sound(l, table, c.now) && c.now <= t
    ensures Level(l, Next(l, table, c, false), key, t) == Capped(l, Left(l, table, c, key) + Inflow(l, t - c.now))
  {
    if c.key != key || key == "" {
      LevelLater(l, table, key, c.now, t);
    }
  }

  /** One call, seen from any key at any later time. */
  lemma NextTapsLevel(l: Limits, table: map<string, Entry>, c: Call, sweep: bool, key: string, t: int)
    requires Proper(l) && (IdleMeansFull(l) || !sweep) && Sound(l, table, c.now) && c.now <= t
    ensures Level(l, Next(l, table, c, sweep), key, t) == Capped(l, Left(l, table, c, key) + Inflow(l, t - c.now))
  {
    TapLevel(l, table, c, key, t);
    NextIsSound(l, table, c, false);
    if c.key != "" && c.key !in table && sweep {
      SweepKeepsLevels(l, Next(l, table, c, false), c.now, key, t);
    }
  }

  /** The lazy, swept table holds for every key, at every time, the level of the continuous bucket. */
  lemma {:induction false} TableRefinesFluid(l: Limits, calls: seq<Call>, sweeps: seq<bool>, key: string, t: int)
    requires Proper(l) && |sweeps| == |calls| && Harmless(l, sweeps) && InOrder(calls)
    requires calls != [] ==> Last(calls) <= t
    ensures Level(l, After(l, calls, sweeps), key, t) == Fluid(l, calls, key, t)
  {
    if calls != [] {
      var n := |calls| - 1;
      var before := After(l, calls[..n], sweeps[..n]);
      TableRefinesFluid(l, calls[..n], sweeps[..n], key, calls[n].now);
      AfterIsSound(l, calls[..n], sweeps[..n], calls[n].now);
      NextTapsLevel(l, before, calls[n], sweeps[n], key, t);
    }
  }

  /** Hence a call is granted exactly when the continuous bucket has a token for it, whatever was swept. */
  lemma AnswersAreServed(l: Limits, calls: seq<Call>, sweeps: seq<bool>, i: nat)
    requires Proper(l) && |sweeps| == |calls| && Harmless(l, sweeps) && InOrder(calls) && i < |calls|
    ensures Answer(l, calls, sweeps, i) <==> ServedBy(l, calls[..i], calls[i])
  {
    TableRefinesFluid(l, calls[..i], sweeps[..i], calls[i].key, calls[i].now);
  }
}
