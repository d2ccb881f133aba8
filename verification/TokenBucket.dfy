/** The write limiter as it runs: a map of entries refilled in place, swept when it grows large. */
module TokenBucket {
  import opened BucketModel

  /** The program's unit of time for the rate, in nanoseconds. */
  function Seconds(dt: int): real {
    dt as real / SECOND as real
  }

  /** The limits NewTokenBucket settles on. */
  function LimitsFor(capacity: int, window: int): (l: Limits)
    ensures Proper(l)
    ensures l.capacity == (if capacity < 1 then 1 else capacity)
    ensures l.window == (if window <= 0 then 60 * SECOND else window)
  {
    var c := if capacity < 1 then 1 else capacity;
    var w := if window <= 0 then 60 * SECOND else window;
    var l := Limits(c, w, c as real / w as real);
    RateFillsWindow(c as real, w as real);
    InflowIsProduct(l, w);
    l
  }

  lemma RateFillsWindow(c: real, w: real)
    requires c > 0.0 && w > 0.0
    ensures c / w > 0.0 && w * (c / w) == c
  {
  }

  /** Refilling by seconds is refilling by nanoseconds. */
  lemma RefillIsInflow(l: Limits, refill: real, dt: int)
    requires refill == l.rate * SECOND as real
    ensures Seconds(dt) * refill == Inflow(l, dt)
  {
    InflowIsProduct(l, dt);
    var s := dt as real / SECOND as real;
    assert s * SECOND as real == dt as real;
    Regroup(s, l.rate, SECOND as real);
  }

  lemma Regroup(s: real, r: real, n: real)
    ensures s * (r * n) == (s * n) * r
  {
  }

  /** The sweep's age limit, computed from the rate, is the window cut down to whole seconds. */
  lemma FullIsWindow(l: Limits, refill: real)
    requires Proper(l) && refill == l.rate * SECOND as real
    ensures refill > 0.0 && (Capacity(l) / refill).Floor * SECOND == FullAfter(l)
  {
    InflowIsProduct(l, l.window);
    var q := Capacity(l) / refill;
    Quotient(l.window as real, l.rate, SECOND as real, q);
    assert q * SECOND as real == l.window as real;
    FloorOfQuotient(l.window, q);
  }

  lemma Quotient(w: real, r: real, n: real, q: real)
    requires r > 0.0 && n > 0.0 && r * n > 0.0 && q == (w * r) / (r * n)
    ensures q * n == w
  {
    assert q * (r * n) == w * r;
    Regroup(q, r, n);
    assert (q * n - w) * r == 0.0;
  }

  lemma FloorOfQuotient(w: int, q: real)
    requires q * SECOND as real == w as real
    ensures q.Floor == w / SECOND
  {
    var k := w / SECOND;
    assert k * SECOND <= w < (k + 1) * SECOND;
    assert k as real <= q < (k + 1) as real;
  }

  /** Capacity over the window in seconds is the rate times a second. */
  lemma RateBySeconds(c: real, w: int)
    requires c > 0.0 && w > 0
    ensures Seconds(w) > 0.0 && c / Seconds(w) == c / w as real * SECOND as real
  {
    var s := Seconds(w);
    var r := c / w as real;
    assert s * SECOND as real == w as real;
    Regroup(s, r, SECOND as real);
    assert s * (r * SECOND as real) == c;
    assert (c / s) * s == c;
    assert (c / s - r * SECOND as real) * s == 0.0;
  }

  class BucketEntry {
    var tokens: real
    var seen: int

    constructor (tokens: real, seen: int)
      ensures this.tokens == tokens && this.seen == seen
    {
      this.tokens := tokens;
      this.seen := seen;
    }

    /** The warm path: refill the entry and take a token if there is one. */
    method Take(ghost limits: Limits, capacity: real, refill: real, now: int) returns (granted: bool)
      requires capacity == Capacity(limits) && refill == limits.rate * SECOND as real
      modifies this
      ensures seen == now
      ensures var level := Capped(limits, old(tokens) + Inflow(limits, now - old(seen)));
              granted == (level >= 1.0) && tokens == if granted then level - 1.0 else level
    {
      RefillIsInflow(limits, refill, now - seen);
      tokens := tokens + Seconds(now - seen) * refill;
      if tokens > capacity {
        tokens := capacity;
      }
      seen := now;
      if tokens < 1.0 {
        return false;
      }
      tokens := tokens - 1.0;
      return true;
    }
  }

  class TokenBucket {
    const capacity: real
    const refill: real
    ghost const limits: Limits
    var entries: map<string, BucketEntry>

    ghost predicate Valid()
      reads this
    {
      && Proper(limits) && capacity == Capacity(limits) && refill == limits.rate * SECOND as real
      && forall j, k :: j in entries && k in entries && j != k ==> entries[j] != entries[k]
    }

    ghost function Contents(): map<string, Entry>
      reads this, entries.Values
    {
      map key | key in entries :: Entry(entries[key].tokens, entries[key].seen)
    }

    constructor (capacity: int, window: int)
      ensures Valid() && limits == LimitsFor(capacity, window) && Contents() == map[]
    {
      var c := if capacity < 1 then 1 else capacity;
      var w := if window <= 0 then 60 * SECOND else window;
      limits := LimitsFor(capacity, window);
      this.capacity := c as real;
      this.refill := c as real / Seconds(w);
      RateBySeconds(c as real, w);
      entries := map[];
    }

    method Allow(key: string, now: int) returns (granted: bool)
      requires Valid()
      modifies this, entries.Values
      ensures Valid() && fresh(entries.Values - old(entries.Values))
      ensures granted == Allowed(limits, old(Contents()), Call(key, now))
      ensures Contents() == Next(limits, old(Contents()), Call(key, now), true)
    {
      if key == "" {
        return false;
      }
      if key !in entries {
        Open(key, now);
        return true;
      }
      granted := Take(key, now);
    }

    /** The cold path: a new key starts with a full bucket less one token, and pays for a sweep. */
    method Open(key: string, now: int)
      requires Valid() && key !in entries && key != ""
      modifies this`entries
      ensures Valid() && fresh(entries.Values - old(entries.Values))
      ensures Contents() == Next(limits, old(Contents()), Call(key, now), true)
    {
      var entry := new BucketEntry(capacity - 1.0, now);
      entries := entries[key := entry];
      assert Contents() == old(Contents())[key := Entry(Capacity(limits) - 1.0, now)];
      SweepLocked(now);
    }

    method Take(key: string, now: int) returns (granted: bool)
      requires Valid() && key in entries && key != ""
      modifies entries[key]
      ensures granted == Allowed(limits, old(Contents()), Call(key, now))
      ensures Contents() == Next(limits, old(Contents()), Call(key, now), true)
    {
      granted := entries[key].Take(limits, capacity, refill, now);
      ghost var level := Level(limits, old(Contents()), key, now);
      assert Contents() == old(Contents())[key := Entry(if level < 1.0 then level else level - 1.0, now)];
    }

    method SweepLocked(now: int)
      requires Valid()
      modifies this`entries
      ensures Valid() && entries.Values <= old(entries.Values)
      ensures Contents() == Swept(limits, old(Contents()), now)
    {
      assert |Contents()| == |entries| by { assert Contents().Keys == entries.Keys; }
      if |entries| < SWEEP_AT {
        return;
      }
      FullIsWindow(limits, refill);
      var full := (capacity / refill).Floor * SECOND;
      ghost var table := Contents();
      var keys := entries.Keys;
      while keys != {}
        invariant keys <= entries.Keys <= old(entries).Keys
        invariant forall key :: key in entries ==> entries[key] == old(entries)[key]
        invariant forall key :: key in table && key !in keys ==> (key in entries <==> !Idle(limits, table[key], now))
        decreases keys
      {
        var key :| key in keys;
        if now - entries[key].seen > full {
          entries := entries - {key};
        }
        keys := keys - {key};
      }
      assert Contents() == Swept(limits, table, now);
    }
  }
}
