/** What the token bucket promises over every trace of calls. */
module BucketTheorems {
  import opened BucketModel

  /** The calls of `key` granted between two instants. */
  function Granted(l: Limits, calls: seq<Call>, sweeps: seq<bool>, key: string, t0: int, t1: int): nat
    requires Proper(l) && |sweeps| == |calls|
  {
    if calls == [] then 0
    else
      var n := |calls| - 1;
      Granted(l, calls[..n], sweeps[..n], key, t0, t1)
      + if calls[n].key == key && t0 <= calls[n].now <= t1 && Answer(l, calls, sweeps, n) then 1 else 0
  }

  /** Between t0 and t1 no more is granted than the capacity and what flows in. */
  ghost predicate Conforms(l: Limits, calls: seq<Call>, sweeps: seq<bool>, key: string, t0: int, t1: int)
    requires Proper(l) && |sweeps| == |calls|
  {
    Granted(l, calls, sweeps, key, t0, t1) as real <= Capacity(l) + Inflow(l, t1 - t0)
  }

  lemma {:induction false} FluidBounds(l: Limits, calls: seq<Call>, key: string, t: int)
    requires Proper(l) && InOrder(calls) && (calls != [] ==> Last(calls) <= t)
    ensures 0.0 <= Fluid(l, calls, key, t) <= Capacity(l)
  {
    if calls != [] {
      var n := |calls| - 1;
      FluidBounds(l, calls[..n], key, calls[n].now);
      InflowIsPositive(l, t - calls[n].now);
    }
  }

  /** The potential: grants so far and tokens left never exceed the capacity and what has flowed in. */
  ghost predicate Funded(l: Limits, granted: nat, level: real, t: int, t0: int, t1: int) {
    && (t < t0 ==> granted == 0)
    && (t0 <= t <= t1 ==> granted as real + level <= Capacity(l) + Inflow(l, t - t0))
    && (t > t1 ==> granted as real <= Capacity(l) + Inflow(l, t1 - t0))
  }

  /** Between two calls only the inflow changes the balance. */
  lemma FundedLater(l: Limits, granted: nat, level: real, u: int, t: int, t0: int, t1: int)
    requires Proper(l) && t0 <= t1 && u <= t && Funded(l, granted, level, u, t0, t1) && 0.0 <= level
    ensures Funded(l, granted, Capped(l, level + Inflow(l, t - u)), t, t0, t1)
  {
    InflowIsPositive(l, t1 - t0);
    if t0 <= u <= t1 {
      InflowAdds(l, u - t0, t - u);
      InflowGrows(l, u - t0, t1 - t0);
    } else if t0 <= t {
      InflowIsPositive(l, t - t0);
    }
  }

  /** A grant moves one token from the level to the count. */
  lemma FundedTap(l: Limits, granted: nat, level: real, t: int, t0: int, t1: int)
    requires Funded(l, granted, level, t, t0, t1)
    ensures Funded(l, granted + if t0 <= t <= t1 then 1 else 0, level - 1.0, t, t0, t1)
  {
  }

  lemma FullIsFunded(l: Limits, t: int, t0: int, t1: int)
    requires Proper(l) && t0 <= t1
    ensures Funded(l, 0, Capacity(l), t, t0, t1)
  {
    InflowIsPositive(l, t1 - t0);
    if t >= t0 {
      InflowIsPositive(l, t - t0);
    }
  }

  lemma {:induction false} GrantsAreFunded(l: Limits, calls: seq<Call>, sweeps: seq<bool>, key: string, t: int,
                                           t0: int, t1: int)
    requires Proper(l) && |sweeps| == |calls| && Harmless(l, sweeps) && InOrder(calls)
    requires t0 <= t1 && (calls != [] ==> Last(calls) <= t)
    ensures Funded(l, Granted(l, calls, sweeps, key, t0, t1), Fluid(l, calls, key, t), t, t0, t1)
  {
    if calls == [] {
      FullIsFunded(l, t, t0, t1);
    } else {
      var n := |calls| - 1;
      var u := Last(calls);
      var granted := Granted(l, calls[..n], sweeps[..n], key, t0, t1);
      var level := Fluid(l, calls[..n], key, u);
      GrantsAreFunded(l, calls[..n], sweeps[..n], key, u, t0, t1);
      FluidBounds(l, calls[..n], key, u);
      AnswersAreServed(l, calls, sweeps, n);
      if calls[n].key == key && ServedBy(l, calls[..n], calls[n]) {
        FundedTap(l, granted, level, u, t0, t1);
        FundedLater(l, granted + if t0 <= u <= t1 then 1 else 0, level - 1.0, u, t, t0, t1);
      } else {
        FundedLater(l, granted, level, u, t, t0, t1);
      }
    }
  }

  /** Every key, every trace, every interval. */
  lemma HarmlessSweepsConform(l: Limits, calls: seq<Call>, sweeps: seq<bool>, key: string, t0: int, t1: int)
    requires Proper(l) && |sweeps| == |calls| && Harmless(l, sweeps) && InOrder(calls) && t0 <= t1
    ensures Conforms(l, calls, sweeps, key, t0, t1)
  {
    var t := if calls == [] || Last(calls) < t1 then t1 else Last(calls);
    GrantsAreFunded(l, calls, sweeps, key, t, t0, t1);
    FluidBounds(l, calls, key, t);
  }

  // ---------- what may be left out of a trace ----------

  function Without(calls: seq<Call>, i: nat): seq<Call>
    requires i < |calls|
  {
    calls[..i] + calls[i + 1..]
  }

  lemma WithoutPrefix(calls: seq<Call>, i: nat)
    requires i < |calls| - 1
    ensures |Without(calls, i)| == |calls| - 1
    ensures Without(calls, i)[|calls| - 2] == calls[|calls| - 1]
    ensures Without(calls, i)[..|calls| - 2] == Without(calls[..|calls| - 1], i)
  {
  }

  lemma FluidIgnoresLastRefused(l: Limits, calls: seq<Call>, key: string, t: int)
    requires Proper(l) && InOrder(calls) && calls != [] && Last(calls) <= t
    requires !ServedBy(l, calls[..|calls| - 1], calls[|calls| - 1])
    ensures Fluid(l, calls[..|calls| - 1], key, t) == Fluid(l, calls, key, t)
  {
    FluidGrows(l, calls[..|calls| - 1], key, Last(calls), t);
  }

  lemma {:induction false} FluidIgnoresRefused(l: Limits, calls: seq<Call>, i: nat, key: string, t: int)
    requires Proper(l) && InOrder(calls) && i < |calls| && Last(calls) <= t && !ServedBy(l, calls[..i], calls[i])
    ensures Fluid(l, Without(calls, i), key, t) == Fluid(l, calls, key, t)
  {
    var n := |calls| - 1;
    if i == n {
      assert Without(calls, i) == calls[..n];
      FluidIgnoresLastRefused(l, calls, key, t);
    } else {
      assert calls[..n][..i] == calls[..i];
      FluidIgnoresRefused(l, calls[..n], i, key, calls[n].now);
      WithoutPrefix(calls, i);
    }
  }

  /** Where call j of a trace stands when call i is struck. */
  function Shifted(i: nat, j: nat): nat
    requires i != j
  {
    if j < i then j else j - 1
  }

  /** Striking call i changes no other answer. */
  ghost predicate Invisible(l: Limits, calls: seq<Call>, i: nat)
    requires Proper(l) && i < |calls|
  {
    forall j :: 0 <= j < |calls| && j != i ==>
      (Answer(l, Without(calls, i), Always(|calls| - 1), Shifted(i, j)) <==> Answer(l, calls, Always(|calls|), j))
  }

  lemma WithoutKeepsOrder(calls: seq<Call>, i: nat)
    requires InOrder(calls) && i < |calls|
    ensures InOrder(Without(calls, i))
  {
  }

  lemma RefusedIsInvisibleTo(l: Limits, calls: seq<Call>, i: nat, j: nat)
    requires Proper(l) && IdleMeansFull(l) && InOrder(calls) && i < |calls| && j < |calls| && j != i
    requires !Answer(l, calls, Always(|calls|), i)
    ensures Answer(l, Without(calls, i), Always(|calls| - 1), Shifted(i, j)) <==> Answer(l, calls, Always(|calls|), j)
  {
    var fewer, k := Without(calls, i), Shifted(i, j);
    assert fewer[k] == calls[j];
    WithoutKeepsOrder(calls, i);
    AnswersAreServed(l, calls, Always(|calls|), i);
    AnswersAreServed(l, calls, Always(|calls|), j);
    AnswersAreServed(l, fewer, Always(|calls| - 1), k);
    if j < i {
      assert fewer[..k] == calls[..j];
    } else {
      assert calls[..j][..i] == calls[..i];
      assert fewer[..k] == Without(calls[..j], i);
      FluidIgnoresRefused(l, calls[..j], i, calls[j].key, calls[j].now);
    }
  }

  /** Striking a refused call from a trace leaves every other answer as it was. */
  lemma RefusedCallsAreInvisible(l: Limits, calls: seq<Call>, i: nat)
    requires Proper(l) && IdleMeansFull(l) && InOrder(calls) && i < |calls| && !Answer(l, calls, Always(|calls|), i)
    ensures Invisible(l, calls, i)
  {
    forall j | 0 <= j < |calls| && j != i
      ensures Answer(l, Without(calls, i), Always(|calls| - 1), Shifted(i, j)) <==> Answer(l, calls, Always(|calls|), j)
    {
      RefusedIsInvisibleTo(l, calls, i, j);
    }
  }

  /** Skipping any sweeps leaves every answer as it was. */
  lemma SweepsAreInvisible(l: Limits, calls: seq<Call>, sweeps: seq<bool>, i: nat)
    requires Proper(l) && IdleMeansFull(l) && InOrder(calls) && |sweeps| == |calls| && i < |calls|
    ensures Answer(l, calls, sweeps, i) <==> Answer(l, calls, Always(|calls|), i)
  {
    AnswersAreServed(l, calls, sweeps, i);
    AnswersAreServed(l, calls, Always(|calls|), i);
  }

  // ---------- patience pays, whatever the window ----------

  /** The entry of a key dates from its last call. */
  lemma {:induction false} EntryDatesFromACall(l: Limits, calls: seq<Call>, sweeps: seq<bool>, key: string, wait: int,
                                               t: int)
    requires Proper(l) && |sweeps| == |calls|
    requires forall j :: 0 <= j < |calls| && calls[j].key == key ==> calls[j].now + wait <= t
    ensures var table := After(l, calls, sweeps); key in table ==> table[key].seen + wait <= t
  {
    if calls != [] {
      var n := |calls| - 1;
      EntryDatesFromACall(l, calls[..n], sweeps[..n], key, wait, t);
    }
  }

  /** Long enough for a token to flow in. */
  predicate LastsAToken(l: Limits, wait: int) {
    Inflow(l, wait) >= 1.0
  }

  lemma WaitingFillsOne(l: Limits, e: Entry, wait: int, now: int)
    requires Proper(l) && LastsAToken(l, wait) && 0.0 <= e.tokens && e.seen + wait <= now
    ensures Capped(l, e.tokens + Inflow(l, now - e.seen)) >= 1.0
  {
    InflowGrows(l, wait, now - e.seen);
  }

  /** A caller that leaves the time of one token between its calls is never refused. */
  lemma SpacedCallsAreGranted(l: Limits, calls: seq<Call>, i: nat, wait: int)
    requires Proper(l) && InOrder(calls) && i < |calls| && calls[i].key != "" && LastsAToken(l, wait)
    requires forall j :: 0 <= j < i && calls[j].key == calls[i].key ==> calls[j].now + wait <= calls[i].now
    ensures Answer(l, calls, Always(|calls|), i)
  {
    var sweeps := Always(|calls|)[..i];
    var table := After(l, calls[..i], sweeps);
    var c := calls[i];
    EntryDatesFromACall(l, calls[..i], sweeps, c.key, wait, c.now);
    AfterIsSound(l, calls[..i], sweeps, c.now);
    if c.key in table {
      WaitingFillsOne(l, table[c.key], wait, c.now);
    }
  }
}
