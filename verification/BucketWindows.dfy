/** Idle entries are dropped by whole seconds, so only some windows keep the rate: which ones, exactly. */
module BucketWindows {
  import opened BucketModel
  import opened BucketTheorems

  // ---------- a trace taken up from a table ----------

  function Onward(l: Limits, table: map<string, Entry>, calls: seq<Call>, sweep: bool): map<string, Entry>
    requires Proper(l)
  {
    if calls == [] then table
    else
      var n := |calls| - 1;
      Next(l, Onward(l, table, calls[..n], sweep), calls[n], sweep)
  }

  /** How many calls of "k" are granted on the way. */
  function Tally(l: Limits, table: map<string, Entry>, calls: seq<Call>, sweep: bool): nat
    requires Proper(l)
  {
    if calls == [] then 0
    else
      var n := |calls| - 1;
      Tally(l, table, calls[..n], sweep)
      + if calls[n].key == "k" && Allowed(l, Onward(l, table, calls[..n], sweep), calls[n]) then 1 else 0
  }

  /** The last call of a trace. */
  lemma OnwardSnoc(l: Limits, table: map<string, Entry>, calls: seq<Call>, c: Call, sweep: bool)
    requires Proper(l)
    ensures Onward(l, table, calls + [c], sweep) == Next(l, Onward(l, table, calls, sweep), c, sweep)
    ensures Tally(l, table, calls + [c], sweep)
            == Tally(l, table, calls, sweep)
               + if c.key == "k" && Allowed(l, Onward(l, table, calls, sweep), c) then 1 else 0
  {
    assert (calls + [c])[..|calls|] == calls;
  }

  /** One call more, known by what it does to the table before it. */
  lemma OneMore(l: Limits, table: map<string, Entry>, calls: seq<Call>, c: Call, before: map<string, Entry>,
                sweep: bool)
    requires Proper(l) && Onward(l, table, calls, sweep) == before
    ensures Onward(l, table, calls + [c], sweep) == Next(l, before, c, sweep)
    ensures Tally(l, table, calls + [c], sweep)
            == Tally(l, table, calls, sweep) + if c.key == "k" && Allowed(l, before, c) then 1 else 0
  {
    OnwardSnoc(l, table, calls, c, sweep);
  }

  lemma {:induction false} OnwardOn(l: Limits, table: map<string, Entry>, xs: seq<Call>, ys: seq<Call>, sweep: bool)
    requires Proper(l)
    ensures Onward(l, table, xs + ys, sweep) == Onward(l, Onward(l, table, xs, sweep), ys, sweep)
    ensures Tally(l, table, xs + ys, sweep)
            == Tally(l, table, xs, sweep) + Tally(l, Onward(l, table, xs, sweep), ys, sweep)
  {
    if ys == [] {
      assert xs + ys == xs;
    } else {
      var n := |ys| - 1;
      OnwardOn(l, table, xs, ys[..n], sweep);
      OnwardSnoc(l, table, xs + ys[..n], ys[n], sweep);
      assert xs + ys[..n] + [ys[n]] == xs + ys;
    }
  }

  function Sweeping(n: nat, sweep: bool): (s: seq<bool>)
    ensures |s| == n
  {
    if sweep then Always(n) else Never(n)
  }

  lemma {:induction false} AfterIsOnward(l: Limits, calls: seq<Call>, sweep: bool)
    requires Proper(l)
    ensures After(l, calls, Sweeping(|calls|, sweep)) == Onward(l, map[], calls, sweep)
  {
    if calls != [] {
      var n := |calls| - 1;
      AfterIsOnward(l, calls[..n], sweep);
      assert Sweeping(n + 1, sweep)[..n] == Sweeping(n, sweep);
    }
  }

  lemma {:induction false} GrantedIsTally(l: Limits, calls: seq<Call>, sweep: bool, end: int)
    requires Proper(l) && forall i :: 0 <= i < |calls| ==> 0 <= calls[i].now <= end
    ensures Granted(l, calls, Sweeping(|calls|, sweep), "k", 0, end) == Tally(l, map[], calls, sweep)
  {
    if calls != [] {
      var n := |calls| - 1;
      GrantedIsTally(l, calls[..n], sweep, end);
      AfterIsOnward(l, calls[..n], sweep);
      assert Sweeping(n + 1, sweep)[..n] == Sweeping(n, sweep);
    }
  }

  // ---------- bursts ----------

  function Burst(n: nat, t: int): seq<Call> {
    seq(n, _ => Call("k", t))
  }

  /** The table with m tokens left for "k". */
  function Tokens(table: map<string, Entry>, m: nat, t: int): map<string, Entry> {
    table["k" := Entry(m as real, t)]
  }

  lemma TakesOne(l: Limits, table: map<string, Entry>, t: int, m: nat, sweep: bool)
    requires Proper(l) && 1 <= m <= l.capacity
    ensures Allowed(l, Tokens(table, m, t), Call("k", t))
    ensures Next(l, Tokens(table, m, t), Call("k", t), sweep) == Tokens(table, m - 1, t)
  {
    assert Level(l, Tokens(table, m, t), "k", t) == m as real;
    assert Tokens(Tokens(table, m, t), m - 1, t) == Tokens(table, m - 1, t);
  }

  lemma OneMoreCall(n: nat, t: int)
    ensures Burst(n + 1, t) == Burst(n, t) + [Call("k", t)]
  {
  }

  /** Calls at one instant empty a bucket token by token. */
  lemma {:induction false} DrainOn(l: Limits, table: map<string, Entry>, t: int, m: nat, n: nat, sweep: bool)
    requires Proper(l) && n <= m <= l.capacity
    ensures Onward(l, Tokens(table, m, t), Burst(n, t), sweep) == Tokens(table, m - n, t)
    ensures Tally(l, Tokens(table, m, t), Burst(n, t), sweep) == n
  {
    if n > 0 {
      DrainOn(l, table, t, m, n - 1, sweep);
      TakesOne(l, table, t, m - (n - 1), sweep);
      OneMoreCall(n - 1, t);
      OneMore(l, Tokens(table, m, t), Burst(n - 1, t), Call("k", t), Tokens(table, m - (n - 1), t), sweep);
    }
  }

  /** The sweep a new key sets off drops nothing that was used just now, and comes only with the 1024th key. */
  lemma FirstCall(l: Limits, table: map<string, Entry>, t: int, sweep: bool)
    requires Proper(l) && "k" !in table && forall key :: key in table ==> table[key].seen == t
    ensures Next(l, table, Call("k", t), sweep) == Tokens(table, l.capacity - 1, t)
    ensures Allowed(l, table, Call("k", t))
  {
    var grown := Tokens(table, l.capacity - 1, t);
    assert Swept(l, grown, t) == grown;
  }

  /** A full burst when "k" is new to a table stamped entirely at t. */
  lemma BurstOn(l: Limits, table: map<string, Entry>, t: int, sweep: bool)
    requires Proper(l) && "k" !in table && forall key :: key in table ==> table[key].seen == t
    ensures Onward(l, table, Burst(l.capacity, t), sweep) == Tokens(table, 0, t)
    ensures Tally(l, table, Burst(l.capacity, t), sweep) == l.capacity
  {
    var first, rest := Burst(1, t), Burst(l.capacity - 1, t);
    assert Burst(l.capacity, t) == first + rest;
    assert first[..0] == [];
    FirstCall(l, table, t, sweep);
    OnwardOn(l, table, first, rest, sweep);
    DrainOn(l, table, t, l.capacity - 1, l.capacity - 1, sweep);
  }

  /** A known key sets off no sweep. */
  lemma {:induction false} KnownKeyNeverSweeps(l: Limits, table: map<string, Entry>, n: nat, t: int)
    requires Proper(l) && "k" in table
    ensures Onward(l, table, Burst(n, t), true) == Onward(l, table, Burst(n, t), false)
    ensures "k" in Onward(l, table, Burst(n, t), true)
    ensures Tally(l, table, Burst(n, t), true) == Tally(l, table, Burst(n, t), false)
  {
    if n > 0 {
      KnownKeyNeverSweeps(l, table, n - 1, t);
      assert Burst(n, t)[..n - 1] == Burst(n - 1, t);
    }
  }

  // ---------- a crowd ----------

  function Filler(i: nat): (key: string)
    ensures |key| == i + 2 && key != "k"
  {
    seq(i + 2, _ => 'f')
  }

  function Fillers(n: nat, t: int): (calls: seq<Call>)
    ensures |calls| == n && forall i :: 0 <= i < n ==> calls[i].now == t
  {
    if n == 0 then [] else Fillers(n - 1, t) + [Call(Filler(n - 1), t)]
  }

  /** The entry of "k" and n full ones first used at t. */
  function Crowd(l: Limits, e: Entry, n: nat, t: int): (table: map<string, Entry>)
    ensures |table| == n + 1 && "k" in table && table["k"] == e
    ensures forall key :: key in table && key != "k" ==> |key| < n + 2 && table[key].seen == t
  {
    if n == 0 then map["k" := e] else Crowd(l, e, n - 1, t)[Filler(n - 1) := Entry(Capacity(l) - 1.0, t)]
  }

  lemma CrowdGrows(l: Limits, e: Entry, n: nat, t: int, sweep: bool)
    requires Proper(l) && (n < SWEEP_AT - 2 || (n == SWEEP_AT - 2 && (sweep ==> !Idle(l, e, t))))
    ensures Next(l, Crowd(l, e, n, t), Call(Filler(n), t), sweep) == Crowd(l, e, n + 1, t)
  {
    var grown := Crowd(l, e, n + 1, t);
    assert Filler(n) !in Crowd(l, e, n, t);
    if n == SWEEP_AT - 2 && sweep {
      assert Swept(l, grown, t) == grown;
    }
  }

  lemma {:induction false} FillersOn(l: Limits, e: Entry, n: nat, t: int, sweep: bool)
    requires Proper(l) && (n < SWEEP_AT - 1 || (n == SWEEP_AT - 1 && (sweep ==> !Idle(l, e, t))))
    ensures Onward(l, map["k" := e], Fillers(n, t), sweep) == Crowd(l, e, n, t)
    ensures Tally(l, map["k" := e], Fillers(n, t), sweep) == 0
  {
    if n > 0 {
      FillersOn(l, e, n - 1, t, sweep);
      CrowdGrows(l, e, n - 1, t, sweep);
      OneMore(l, map["k" := e], Fillers(n - 1, t), Call(Filler(n - 1), t), Crowd(l, e, n - 1, t), sweep);
    }
  }

  /** The filler that makes 1024 sets off the sweep, which drops an idle entry of "k". */
  lemma LastFillerSweeps(l: Limits, e: Entry, t: int)
    requires Proper(l) && Idle(l, e, t)
    ensures var table := Next(l, Crowd(l, e, SWEEP_AT - 2, t), Call(Filler(SWEEP_AT - 2), t), true);
            "k" !in table && forall key :: key in table ==> table[key].seen == t
  {
    var crowd := Crowd(l, e, SWEEP_AT - 2, t);
    assert Filler(SWEEP_AT - 2) !in crowd;
    assert |crowd[Filler(SWEEP_AT - 2) := Entry(Capacity(l) - 1.0, t)]| == SWEEP_AT;
  }

  lemma FillersSweep(l: Limits, e: Entry, t: int) returns (table: map<string, Entry>)
    requires Proper(l) && Idle(l, e, t)
    ensures Onward(l, map["k" := e], Fillers(SWEEP_AT - 1, t), true) == table
    ensures Tally(l, map["k" := e], Fillers(SWEEP_AT - 1, t), true) == 0
    ensures "k" !in table && forall key :: key in table ==> table[key].seen == t
  {
    var n := SWEEP_AT - 2;
    var last := Call(Filler(n), t);
    FillersOn(l, e, n, t, true);
    LastFillerSweeps(l, e, t);
    OnwardSnoc(l, map["k" := e], Fillers(n, t), last, true);
    table := Next(l, Crowd(l, e, n, t), last, true);
  }

  // ---------- two bursts before the window is over ----------

  /** A burst, then 1023 other keys, then another burst. */
  function TwoBursts(l: Limits, end: int): seq<Call>
    requires Proper(l)
  {
    Burst(l.capacity, 0) + Fillers(SWEEP_AT - 1, end) + Burst(l.capacity, end)
  }

  lemma TwoBurstsAreTimed(l: Limits, end: int)
    requires Proper(l) && 0 <= end
    ensures var calls := TwoBursts(l, end); InOrder(calls) && forall i :: 0 <= i < |calls| ==> 0 <= calls[i].now <= end
  {
  }

  lemma BothBurstsAreGranted(l: Limits, end: int)
    requires Proper(l) && end > FullAfter(l)
    ensures Tally(l, map[], TwoBursts(l, end), true) == 2 * l.capacity
  {
    var first, crowd, second := Burst(l.capacity, 0), Fillers(SWEEP_AT - 1, end), Burst(l.capacity, end);
    BurstOn(l, map[], 0, true);
    var drained := Entry(0.0, 0);
    assert Tokens(map[], 0, 0) == map["k" := drained];
    var table := FillersSweep(l, drained, end);
    BurstOn(l, table, end, true);
    OnwardOn(l, map[], first, crowd, true);
    OnwardOn(l, map[], first + crowd, second, true);
  }

  /** More than the rate allows. */
  lemma TwoIsTooMany(l: Limits, calls: seq<Call>, sweeps: seq<bool>, end: int)
    requires Proper(l) && |sweeps| == |calls| && 0 <= end < l.window
    requires Granted(l, calls, sweeps, "k", 0, end) == 2 * l.capacity
    ensures !Conforms(l, calls, sweeps, "k", 0, end)
  {
    InflowGrows(l, end, l.window);
  }

  /** Where an idle entry need not be full, two bursts are granted within less than the window. */
  lemma SomeWindowsOverrun(l: Limits) returns (calls: seq<Call>, end: int)
    requires Proper(l) && !IdleMeansFull(l)
    ensures InOrder(calls) && 0 <= end && !Conforms(l, calls, Always(|calls|), "k", 0, end)
  {
    end := FullAfter(l) + 1;
    calls := TwoBursts(l, end);
    TwoBurstsAreTimed(l, end);
    BothBurstsAreGranted(l, end);
    GrantedIsTally(l, calls, true, end);
    TwoIsTooMany(l, calls, Always(|calls|), end);
  }

  /** Every key, every trace, every interval: at most the capacity and the inflow, exactly when the window is
      a whole number of seconds or a nanosecond more. */
  lemma RateHoldsExactlyWhenIdleMeansFull(l: Limits)
    requires Proper(l)
    ensures (forall calls, key, t0, t1 :: InOrder(calls) && t0 <= t1 ==>
            Conforms(l, calls, Always(|calls|), key, t0, t1))
            <==> IdleMeansFull(l)
  {
    if IdleMeansFull(l) {
      forall calls, key, t0, t1 | InOrder(calls) && t0 <= t1 ensures Conforms(l, calls, Always(|calls|), key, t0, t1) {
        HarmlessSweepsConform(l, calls, Always(|calls|), key, t0, t1);
      }
    } else {
      var calls, end := SomeWindowsOverrun(l);
      assert InOrder(calls) && !Conforms(l, calls, Always(|calls|), "k", 0, end);
    }
  }

  // ---------- visible sweeps ----------

  ghost predicate SameAnswers(l: Limits, calls: seq<Call>, sweeps: seq<bool>, others: seq<bool>)
    requires Proper(l) && |sweeps| == |calls| == |others|
  {
    forall i :: 0 <= i < |calls| ==> (Answer(l, calls, sweeps, i) <==> Answer(l, calls, others, i))
  }

  lemma PrefixAnswers(l: Limits, calls: seq<Call>, sweeps: seq<bool>, n: nat, i: nat)
    requires Proper(l) && |sweeps| == |calls| && i < n <= |calls|
    ensures Answer(l, calls[..n], sweeps[..n], i) <==> Answer(l, calls, sweeps, i)
  {
    assert calls[..n][..i] == calls[..i] && sweeps[..n][..i] == sweeps[..i];
  }

  /** Which calls of a trace are granted to `key` between two instants. */
  function Marks(l: Limits, calls: seq<Call>, sweeps: seq<bool>, key: string, t0: int, t1: int): (marks: seq<bool>)
    requires Proper(l) && |sweeps| == |calls|
    ensures |marks| == |calls|
    ensures forall i :: 0 <= i < |calls| ==>
              marks[i] == (calls[i].key == key && t0 <= calls[i].now <= t1 && Answer(l, calls, sweeps, i))
  {
    seq(|calls|, i requires 0 <= i < |calls| =>
          calls[i].key == key && t0 <= calls[i].now <= t1 && Answer(l, calls, sweeps, i))
  }

  function Count(marks: seq<bool>): nat {
    if marks == [] then 0
    else
      var n := |marks| - 1;
      Count(marks[..n]) + if marks[n] then 1 else 0
  }

  lemma {:induction false} CountWithout(marks: seq<bool>, i: nat)
    requires i < |marks| && !marks[i]
    ensures Count(marks[..i] + marks[i + 1..]) == Count(marks)
  {
    var n := |marks| - 1;
    var fewer := marks[..i] + marks[i + 1..];
    if i == n {
      assert fewer == marks[..n];
    } else {
      CountWithout(marks[..n], i);
      assert fewer[..n - 1] == marks[..n][..i] + marks[..n][i + 1..];
    }
  }

  lemma GrantedStep(l: Limits, calls: seq<Call>, sweeps: seq<bool>, m: nat, key: string, t0: int, t1: int)
    requires Proper(l) && |sweeps| == |calls| && m < |calls|
    ensures Granted(l, calls[..m + 1], sweeps[..m + 1], key, t0, t1)
            == Granted(l, calls[..m], sweeps[..m], key, t0, t1)
               + if Marks(l, calls, sweeps, key, t0, t1)[m] then 1 else 0
  {
    PrefixAnswers(l, calls, sweeps, m + 1, m);
    assert calls[..m + 1][..m] == calls[..m] && sweeps[..m + 1][..m] == sweeps[..m];
  }

  lemma {:induction false} GrantedUpTo(l: Limits, calls: seq<Call>, sweeps: seq<bool>, m: nat, key: string, t0: int,
                                       t1: int)
    requires Proper(l) && |sweeps| == |calls| && m <= |calls|
    ensures Granted(l, calls[..m], sweeps[..m], key, t0, t1) == Count(Marks(l, calls, sweeps, key, t0, t1)[..m])
  {
    if m > 0 {
      GrantedUpTo(l, calls, sweeps, m - 1, key, t0, t1);
      GrantedStep(l, calls, sweeps, m - 1, key, t0, t1);
      assert Marks(l, calls, sweeps, key, t0, t1)[..m][..m - 1] == Marks(l, calls, sweeps, key, t0, t1)[..m - 1];
    }
  }

  lemma GrantedIsCount(l: Limits, calls: seq<Call>, sweeps: seq<bool>, key: string, t0: int, t1: int)
    requires Proper(l) && |sweeps| == |calls|
    ensures Granted(l, calls, sweeps, key, t0, t1) == Count(Marks(l, calls, sweeps, key, t0, t1))
  {
    var marks := Marks(l, calls, sweeps, key, t0, t1);
    assert calls[..|calls|] == calls && sweeps[..|calls|] == sweeps && marks[..|calls|] == marks;
    GrantedUpTo(l, calls, sweeps, |calls|, key, t0, t1);
  }

  lemma SameAnswersSameGrants(l: Limits, calls: seq<Call>, sweeps: seq<bool>, others: seq<bool>, key: string, t0: int,
                              t1: int)
    requires Proper(l) && |sweeps| == |calls| == |others| && SameAnswers(l, calls, sweeps, others)
    ensures Granted(l, calls, sweeps, key, t0, t1) == Granted(l, calls, others, key, t0, t1)
  {
    GrantedIsCount(l, calls, sweeps, key, t0, t1);
    GrantedIsCount(l, calls, others, key, t0, t1);
    assert Marks(l, calls, sweeps, key, t0, t1) == Marks(l, calls, others, key, t0, t1);
  }

  /** Without its sweeps the program would keep the rate on any window; so where it does not, a sweep shows. */
  lemma SomeSweepShows(l: Limits) returns (calls: seq<Call>)
    requires Proper(l) && !IdleMeansFull(l)
    ensures InOrder(calls) && !SameAnswers(l, calls, Never(|calls|), Always(|calls|))
  {
    var end;
    calls, end := SomeWindowsOverrun(l);
    HarmlessSweepsConform(l, calls, Never(|calls|), "k", 0, end);
    if SameAnswers(l, calls, Never(|calls|), Always(|calls|)) {
      SameAnswersSameGrants(l, calls, Never(|calls|), Always(|calls|), "k", 0, end);
    }
  }

  /** Skipping sweeps never changes an answer exactly when idle means full. */
  lemma SweepsAreInvisibleExactlyWhenIdleMeansFull(l: Limits)
    requires Proper(l)
    ensures (forall calls, sweeps :: InOrder(calls) && |sweeps| == |calls| ==>
            SameAnswers(l, calls, sweeps, Always(|calls|)))
            <==> IdleMeansFull(l)
  {
    if IdleMeansFull(l) {
      forall calls, sweeps | InOrder(calls) && |sweeps| == |calls|
        ensures SameAnswers(l, calls, sweeps, Always(|calls|))
      {
        forall i | 0 <= i < |calls| ensures Answer(l, calls, sweeps, i) <==> Answer(l, calls, Always(|calls|), i) {
          SweepsAreInvisible(l, calls, sweeps, i);
        }
      }
    } else {
      var calls := SomeSweepShows(l);
      assert InOrder(calls) && |Never(|calls|)| == |calls| && !SameAnswers(l, calls, Never(|calls|), Always(|calls|));
    }
  }

  // ---------- visible refusals ----------

  /** The two bursts, with a call in between that is refused and renews the entry. */
  function Renewed(l: Limits, end: int): seq<Call>
    requires Proper(l)
  {
    Burst(l.capacity, 0) + [Call("k", 1)] + Fillers(SWEEP_AT - 1, end) + Burst(l.capacity, end)
  }

  lemma RenewedIsTimed(l: Limits, end: int)
    requires Proper(l) && 1 <= end
    ensures var calls := Renewed(l, end);
            && InOrder(calls) && (forall i :: 0 <= i < |calls| ==> 0 <= calls[i].now <= end)
            && l.capacity < |calls| && Without(calls, l.capacity) == TwoBursts(l, end)
  {
    assert Without(Renewed(l, end), l.capacity) == TwoBursts(l, end);
  }

  lemma RefusedAt1(l: Limits, sweep: bool)
    requires Proper(l) && Inflow(l, 1) < 1.0
    ensures var table := map["k" := Entry(0.0, 0)];
            && !Allowed(l, table, Call("k", 1))
            && Onward(l, table, [Call("k", 1)], sweep) == map["k" := Entry(Inflow(l, 1), 1)]
            && Tally(l, table, [Call("k", 1)], sweep) == 0
  {
    var table := map["k" := Entry(0.0, 0)];
    assert [Call("k", 1)][..0] == [];
    assert Level(l, table, "k", 1) == Inflow(l, 1);
    assert table["k" := Entry(Inflow(l, 1), 1)] == map["k" := Entry(Inflow(l, 1), 1)];
  }

  /** Up to the second burst the renewed trace goes the same way whether or not it is swept. */
  lemma RenewedUpToCrowd(l: Limits, end: int, sweep: bool)
    requires Proper(l) && Inflow(l, 1) < 1.0 && end == FullAfter(l) + 1
    ensures var calls := Burst(l.capacity, 0) + [Call("k", 1)] + Fillers(SWEEP_AT - 1, end);
            && Onward(l, map[], calls, sweep) == Crowd(l, Entry(Inflow(l, 1), 1), SWEEP_AT - 1, end)
            && Tally(l, map[], calls, sweep) == l.capacity
  {
    var first, refused, crowd := Burst(l.capacity, 0), [Call("k", 1)], Fillers(SWEEP_AT - 1, end);
    BurstOn(l, map[], 0, sweep);
    assert Tokens(map[], 0, 0) == map["k" := Entry(0.0, 0)];
    RefusedAt1(l, sweep);
    FillersOn(l, Entry(Inflow(l, 1), 1), SWEEP_AT - 1, end, sweep);
    OnwardOn(l, map[], first, refused, sweep);
    OnwardOn(l, map[], first + refused, crowd, sweep);
  }

  lemma RenewedIsUnswept(l: Limits, end: int)
    requires Proper(l) && Inflow(l, 1) < 1.0 && end == FullAfter(l) + 1
    ensures Tally(l, map[], Renewed(l, end), true) == Tally(l, map[], Renewed(l, end), false)
  {
    var calls := Burst(l.capacity, 0) + [Call("k", 1)] + Fillers(SWEEP_AT - 1, end);
    RenewedUpToCrowd(l, end, true);
    RenewedUpToCrowd(l, end, false);
    KnownKeyNeverSweeps(l, Crowd(l, Entry(Inflow(l, 1), 1), SWEEP_AT - 1, end), l.capacity, end);
    OnwardOn(l, map[], calls, Burst(l.capacity, end), true);
    OnwardOn(l, map[], calls, Burst(l.capacity, end), false);
  }

  lemma TheCallAt1IsRefused(l: Limits, end: int)
    requires Proper(l) && Inflow(l, 1) < 1.0 && 1 <= end
    ensures var calls := Renewed(l, end); l.capacity < |calls| && !Answer(l, calls, Always(|calls|), l.capacity)
  {
    var calls := Renewed(l, end);
    assert calls[..l.capacity] == Burst(l.capacity, 0) && calls[l.capacity] == Call("k", 1);
    assert Always(|calls|)[..l.capacity] == Sweeping(l.capacity, true);
    AfterIsOnward(l, Burst(l.capacity, 0), true);
    BurstOn(l, map[], 0, true);
    assert Tokens(map[], 0, 0) == map["k" := Entry(0.0, 0)];
    RefusedAt1(l, true);
  }

  /** The last call of a trace that sweeps whenever it may. */
  lemma AfterLast(l: Limits, calls: seq<Call>, n: nat)
    requires Proper(l) && |calls| == n + 1
    ensures After(l, calls, Always(n + 1)) == Next(l, After(l, calls[..n], Always(n)), calls[n], true)
  {
    assert Always(n + 1)[..n] == Always(n);
  }

  lemma AlwaysAnswers(l: Limits, calls: seq<Call>, n: nat, i: nat)
    requires Proper(l) && i < n <= |calls|
    ensures Answer(l, calls[..n], Always(n), i) <==> Answer(l, calls, Always(|calls|), i)
  {
    assert Always(|calls|)[..n] == Always(n);
    PrefixAnswers(l, calls, Always(|calls|), n, i);
  }

  lemma InvisibleMark(l: Limits, calls: seq<Call>, i: nat, j: nat, k: nat, key: string, t0: int, t1: int)
    requires Proper(l) && i < |calls| && Invisible(l, calls, i) && j < |calls| && j != i && k == Shifted(i, j)
    ensures |Without(calls, i)| == |calls| - 1
    ensures Marks(l, Without(calls, i), Always(|calls| - 1), key, t0, t1)[k]
            == Marks(l, calls, Always(|calls|), key, t0, t1)[j]
  {
    assert Without(calls, i)[k] == calls[j];
  }

  lemma InvisibleKeepsMarks(l: Limits, calls: seq<Call>, i: nat, marks: seq<bool>, fewer: seq<bool>,
                            key: string, t0: int, t1: int)
    requires Proper(l) && i < |calls| && Invisible(l, calls, i) && |Without(calls, i)| == |calls| - 1
    requires marks == Marks(l, calls, Always(|calls|), key, t0, t1)
    requires fewer == Marks(l, Without(calls, i), Always(|calls| - 1), key, t0, t1)
    ensures fewer == marks[..i] + marks[i + 1..]
  {
    forall k | 0 <= k < |calls| - 1 ensures fewer[k] == marks[if k < i then k else k + 1] {
      InvisibleMark(l, calls, i, if k < i then k else k + 1, k, key, t0, t1);
    }
  }

  lemma InvisibleKeepsGrants(l: Limits, calls: seq<Call>, i: nat, key: string, t0: int, t1: int)
    requires Proper(l) && i < |calls| && !Answer(l, calls, Always(|calls|), i) && Invisible(l, calls, i)
    ensures |Without(calls, i)| == |calls| - 1
    ensures Granted(l, Without(calls, i), Always(|calls| - 1), key, t0, t1)
            == Granted(l, calls, Always(|calls|), key, t0, t1)
  {
    GrantedIsCount(l, calls, Always(|calls|), key, t0, t1);
    GrantedIsCount(l, Without(calls, i), Always(|calls| - 1), key, t0, t1);
    var marks := Marks(l, calls, Always(|calls|), key, t0, t1);
    InvisibleKeepsMarks(l, calls, i, marks, Marks(l, Without(calls, i), Always(|calls| - 1), key, t0, t1), key, t0, t1);
    CountWithout(marks, i);
  }

  lemma UnsweptKeepsTheRate(l: Limits, calls: seq<Call>, end: int)
    requires Proper(l) && InOrder(calls) && 0 <= end < l.window
    ensures Granted(l, calls, Never(|calls|), "k", 0, end) != 2 * l.capacity
  {
    HarmlessSweepsConform(l, calls, Never(|calls|), "k", 0, end);
    if Granted(l, calls, Never(|calls|), "k", 0, end) == 2 * l.capacity {
      TwoIsTooMany(l, calls, Never(|calls|), end);
    }
  }

  lemma RenewedKeepsTheRate(l: Limits, end: int)
    requires Proper(l) && !IdleMeansFull(l) && Inflow(l, 1) < 1.0 && end == FullAfter(l) + 1
    ensures var calls := Renewed(l, end); Granted(l, calls, Always(|calls|), "k", 0, end) != 2 * l.capacity
  {
    var calls := Renewed(l, end);
    RenewedIsTimed(l, end);
    GrantedIsTally(l, calls, true, end);
    GrantedIsTally(l, calls, false, end);
    RenewedIsUnswept(l, end);
    UnsweptKeepsTheRate(l, calls, end);
  }

  lemma TwoBurstsGrants(l: Limits, end: int)
    requires Proper(l) && end == FullAfter(l) + 1
    ensures var calls := TwoBursts(l, end); Granted(l, calls, Always(|calls|), "k", 0, end) == 2 * l.capacity
  {
    TwoBurstsAreTimed(l, end);
    BothBurstsAreGranted(l, end);
    GrantedIsTally(l, TwoBursts(l, end), true, end);
  }

  lemma RefusalShows(l: Limits, calls: seq<Call>, fewer: seq<Call>, i: nat, end: int)
    requires Proper(l) && i < |calls| && !Answer(l, calls, Always(|calls|), i) && Without(calls, i) == fewer
    requires Granted(l, fewer, Always(|fewer|), "k", 0, end) != Granted(l, calls, Always(|calls|), "k", 0, end)
    ensures !Invisible(l, calls, i)
  {
    if Invisible(l, calls, i) {
      InvisibleKeepsGrants(l, calls, i, "k", 0, end);
    }
  }

  lemma SomeRefusalShows(l: Limits) returns (calls: seq<Call>, i: nat)
    requires Proper(l) && !IdleMeansFull(l) && Inflow(l, 1) < 1.0
    ensures InOrder(calls) && i < |calls| && !Answer(l, calls, Always(|calls|), i) && !Invisible(l, calls, i)
  {
    var end := FullAfter(l) + 1;
    calls, i := Renewed(l, end), l.capacity;
    RenewedIsTimed(l, end);
    TheCallAt1IsRefused(l, end);
    RenewedKeepsTheRate(l, end);
    TwoBurstsGrants(l, end);
    RefusalShows(l, calls, TwoBursts(l, end), i, end);
  }

  /** Where every nanosecond brings a token, a refused call comes at the instant of the one before and leaves
      the table as it is. */
  lemma InstantRefusalChangesNothing(l: Limits, table: map<string, Entry>, c: Call, sweep: bool)
    requires Proper(l) && Inflow(l, 1) >= 1.0 && Sound(l, table, c.now) && !Allowed(l, table, c)
    ensures Next(l, table, c, sweep) == table
  {
    if c.key != "" {
      var e := table[c.key];
      if e.seen < c.now {
        InflowGrows(l, 1, c.now - e.seen);
      }
      assert Level(l, table, c.key, c.now) == e.tokens;
      assert table[c.key := e] == table;
    }
  }

  lemma InstantRefusalAtTheEnd(l: Limits, calls: seq<Call>, n: nat)
    requires Proper(l) && Inflow(l, 1) >= 1.0 && InOrder(calls) && |calls| == n + 1
    requires !Answer(l, calls, Always(n + 1), n)
    ensures After(l, calls[..n], Always(n)) == After(l, calls, Always(n + 1))
  {
    AfterLast(l, calls, n);
    assert Always(n + 1)[..n] == Always(n);
    AfterIsSound(l, calls[..n], Always(n), calls[n].now);
    InstantRefusalChangesNothing(l, After(l, calls[..n], Always(n)), calls[n], true);
  }

  /** The same call after the same table leaves the same table. */
  lemma OneCallMore(l: Limits, calls: seq<Call>, fewer: seq<Call>, front: seq<Call>, n: nat)
    requires Proper(l) && n > 0 && |calls| == n + 1 && fewer == front + [calls[n]] && |front| == n - 1
    requires After(l, front, Always(n - 1)) == After(l, calls[..n], Always(n))
    ensures After(l, fewer, Always(n)) == After(l, calls, Always(n + 1))
  {
    AfterLast(l, calls, n);
    AfterLast(l, fewer, n - 1);
    assert fewer[..n - 1] == front;
  }

  lemma WithoutLast(calls: seq<Call>, n: nat, i: nat)
    requires |calls| == n + 1 && i <= n
    ensures |Without(calls, i)| == n
    ensures Without(calls, i) == if i == n then calls[..n] else Without(calls[..n], i) + [calls[n]]
  {
  }

  /** One call more, with or without an earlier one. */
  lemma InstantRefusalBefore(l: Limits, calls: seq<Call>, n: nat, i: nat)
    requires Proper(l) && |calls| == n + 1 && i < n
    requires After(l, Without(calls[..n], i), Always(n - 1)) == After(l, calls[..n], Always(n))
    ensures After(l, Without(calls, i), Always(n)) == After(l, calls, Always(n + 1))
  {
    WithoutLast(calls, n, i);
    WithoutLast(calls[..n], n - 1, i);
    OneCallMore(l, calls, Without(calls, i), Without(calls[..n], i), n);
  }

  lemma {:induction false} InstantRefusalIsSkipped(l: Limits, calls: seq<Call>, n: nat, i: nat)
    requires Proper(l) && Inflow(l, 1) >= 1.0 && InOrder(calls) && |calls| == n + 1 && i <= n
    requires !Answer(l, calls, Always(n + 1), i)
    ensures |Without(calls, i)| == n
    ensures After(l, Without(calls, i), Always(n)) == After(l, calls, Always(n + 1))
  {
    WithoutLast(calls, n, i);
    if i == n {
      InstantRefusalAtTheEnd(l, calls, n);
    } else {
      AlwaysAnswers(l, calls, n, i);
      InstantRefusalIsSkipped(l, calls[..n], n - 1, i);
      InstantRefusalBefore(l, calls, n, i);
    }
  }

  lemma InstantRefusalIsInvisibleTo(l: Limits, calls: seq<Call>, i: nat, j: nat)
    requires Proper(l) && Inflow(l, 1) >= 1.0 && InOrder(calls) && i < |calls| && j < |calls| && j != i
    requires !Answer(l, calls, Always(|calls|), i)
    ensures Answer(l, Without(calls, i), Always(|calls| - 1), Shifted(i, j)) <==> Answer(l, calls, Always(|calls|), j)
  {
    var n, fewer, k := |calls|, Without(calls, i), Shifted(i, j);
    assert fewer[k] == calls[j];
    assert Always(n - 1)[..k] == Always(k) && Always(n)[..j] == Always(j);
    if j < i {
      assert fewer[..k] == calls[..j];
    } else {
      assert fewer[..k] == Without(calls[..j], i);
      AlwaysAnswers(l, calls, j, i);
      InstantRefusalIsSkipped(l, calls[..j], j - 1, i);
    }
  }

  lemma InstantRefusalIsInvisible(l: Limits, calls: seq<Call>, i: nat)
    requires Proper(l) && Inflow(l, 1) >= 1.0 && InOrder(calls) && i < |calls|
    requires !Answer(l, calls, Always(|calls|), i)
    ensures Invisible(l, calls, i)
  {
    forall j | 0 <= j < |calls| && j != i
      ensures Answer(l, Without(calls, i), Always(|calls| - 1), Shifted(i, j)) <==> Answer(l, calls, Always(|calls|), j)
    {
      InstantRefusalIsInvisibleTo(l, calls, i, j);
    }
  }

  /** Striking a refused call never changes another answer exactly when idle means full, or every nanosecond
      brings a token. */
  lemma RefusalsAreInvisibleExactly(l: Limits)
    requires Proper(l)
    ensures (forall calls, i :: InOrder(calls) && 0 <= i < |calls| && !Answer(l, calls, Always(|calls|), i) ==>
            Invisible(l, calls, i))
            <==> IdleMeansFull(l) || LastsAToken(l, 1)
  {
    if IdleMeansFull(l) || LastsAToken(l, 1) {
      forall calls, i | InOrder(calls) && 0 <= i < |calls| && !Answer(l, calls, Always(|calls|), i)
        ensures Invisible(l, calls, i)
      {
        if IdleMeansFull(l) {
          RefusedCallsAreInvisible(l, calls, i);
        } else {
          InstantRefusalIsInvisible(l, calls, i);
        }
      }
    } else {
      var calls, i := SomeRefusalShows(l);
      assert InOrder(calls) && 0 <= i < |calls| && !Answer(l, calls, Always(|calls|), i) && !Invisible(l, calls, i);
    }
  }
}
