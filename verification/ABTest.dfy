/** Weighted choice among a link's variants, and how many draws each of them gets. */
module ABTest {
  import opened Wrappers
  import opened Links

  function Max(a: int, b: int): int {
    if a < b then b else a
  }

  /** What the draw is taken below: the positive weights. */
  function Total(vs: seq<Variant>): (w: nat) {
    if vs == [] then 0 else Total(vs[..|vs| - 1]) + Max(0, vs[|vs| - 1].weight)
  }

  /** What the draw is compared with: all the weights so far. */
  function Sum(vs: seq<Variant>): int {
    if vs == [] then 0 else Sum(vs[..|vs| - 1]) + vs[|vs| - 1].weight
  }

  /** The highest sum reached, from nothing on. */
  function Reached(vs: seq<Variant>): nat {
    if vs == [] then 0 else Max(Reached(vs[..|vs| - 1]), Sum(vs))
  }

  /** The first variant whose sum exceeds the draw, or else the last one. */
  ghost predicate Selects(vs: seq<Variant>, draw: int, i: nat)
    requires i < |vs|
  {
    Reached(vs[..i]) <= draw && (draw < Sum(vs[..i + 1]) || i == |vs| - 1)
  }

  lemma {:induction false} ReachedIsHighest(vs: seq<Variant>, i: nat)
    requires i <= |vs|
    ensures Sum(vs[..i]) <= Reached(vs[..i]) <= Reached(vs)
  {
    if i < |vs| {
      ReachedIsHighest(vs[..|vs| - 1], i);
      assert vs[..|vs| - 1][..i] == vs[..i];
    } else {
      assert vs[..i] == vs;
    }
  }

  lemma {:induction false} ReachedWithinTotal(vs: seq<Variant>)
    ensures Sum(vs) <= Reached(vs) <= Total(vs)
  {
    if vs != [] {
      ReachedWithinTotal(vs[..|vs| - 1]);
    }
  }

  lemma LastTakesTheRest(vs: seq<Variant>, draw: int)
    requires vs != [] && Reached(vs[..|vs|]) <= draw
    ensures Selects(vs, draw, |vs| - 1)
  {
    ReachedIsHighest(vs, |vs| - 1);
    assert vs[..|vs|] == vs;
  }

  /** EvaluateABTest; `draw` is the random number below the bound the source asks for, if there was entropy. */
  method EvaluateABTest(variants: seq<Variant>, draw: Option<nat>) returns (chosen: Option<nat>)
    requires draw.Some? ==> draw.value < if Total(variants) > 0 then Total(variants) else Max(1, |variants|)
    requires draw.None? ==> variants == [] || Total(variants) > 0
    ensures chosen.None? <==> variants == []
    ensures chosen.Some? ==> chosen.value < |variants|
    ensures chosen.Some? && draw.None? ==> chosen.value == 0
    ensures chosen.Some? && draw.Some? && Total(variants) == 0 ==> chosen.value == draw.value
    ensures chosen.Some? && draw.Some? && Total(variants) > 0 ==> Selects(variants, draw.value, chosen.value)
  {
    if |variants| == 0 {
      return None;
    }
    var totalWeight := 0;
    for i := 0 to |variants|
      invariant totalWeight == Total(variants[..i])
    {
      assert variants[..i + 1][..i] == variants[..i];
      if variants[i].weight > 0 {
        totalWeight := totalWeight + variants[i].weight;
      }
    }
    assert variants[..|variants|] == variants;
    if totalWeight <= 0 {
      return Some(draw.value);
    }
    if draw.None? {
      return Some(0);
    }
    var current := 0;
    for i := 0 to |variants|
      invariant current == Sum(variants[..i])
      invariant Reached(variants[..i]) <= draw.value
    {
      assert variants[..i + 1][..i] == variants[..i];
      current := current + variants[i].weight;
      if draw.value < current {
        return Some(i);
      }
    }
    LastTakesTheRest(variants, draw.value);
    return Some(|variants| - 1);
  }

  /** Every draw selects one variant. */
  lemma SelectionIsUnique(vs: seq<Variant>, draw: int, i: nat, j: nat)
    requires i < j < |vs| && Selects(vs, draw, i)
    ensures !Selects(vs, draw, j)
  {
    assert vs[..j][..i + 1] == vs[..i + 1];
    ReachedIsHighest(vs[..j], i + 1);
  }

  // ---------- shares ----------

  function Range(lo: int, hi: int): (s: set<int>)
    ensures forall r :: r in s <==> lo <= r < hi
    ensures |s| == Max(0, hi - lo)
    decreases hi - lo
  {
    if lo < hi then Range(lo, hi - 1) + {hi - 1} else {}
  }

  /** How many of the equally likely draws select variant i. */
  ghost function Share(vs: seq<Variant>, i: nat): nat
    requires i < |vs|
  {
    |set r | 0 <= r < Total(vs) && Selects(vs, r, i)|
  }

  lemma {:induction false} TotalGrows(vs: seq<Variant>, i: nat)
    requires i <= |vs|
    ensures Total(vs[..i]) <= Total(vs)
  {
    if i < |vs| {
      TotalGrows(vs[..|vs| - 1], i);
      assert vs[..|vs| - 1][..i] == vs[..i];
    } else {
      assert vs[..i] == vs;
    }
  }

  function Ceiling(vs: seq<Variant>, i: nat): int
    requires i < |vs|
  {
    if i == |vs| - 1 then Total(vs) else Sum(vs[..i + 1])
  }

  lemma CeilingWithinTotal(vs: seq<Variant>, i: nat)
    requires i < |vs|
    ensures Ceiling(vs, i) <= Total(vs)
  {
    TotalGrows(vs, i + 1);
    ReachedWithinTotal(vs[..i + 1]);
  }

  lemma SumWithinTotal(vs: seq<Variant>, i: nat)
    requires i < |vs|
    ensures Sum(vs[..i + 1]) <= Total(vs)
  {
    TotalGrows(vs, i + 1);
    ReachedWithinTotal(vs[..i + 1]);
  }

  /** A variant gets what its sum rises above everything reached before; the last one gets the rest. */
  lemma ShareIsTheRise(vs: seq<Variant>, i: nat)
    requires i < |vs|
    ensures Share(vs, i) == Max(0, Ceiling(vs, i) - Reached(vs[..i]))
  {
    var drawn := set r | 0 <= r < Total(vs) && Selects(vs, r, i);
    var range := Range(Reached(vs[..i]), Ceiling(vs, i));
    CeilingWithinTotal(vs, i);
    SumWithinTotal(vs, i);
    forall r ensures r in drawn <==> r in range {
      assert r in drawn <==> 0 <= r < Total(vs) && Selects(vs, r, i);
    }
    assert drawn == range;
  }

  /** A variant not the last with a positive weight behind a negative one. */
  ghost predicate Shadowed(vs: seq<Variant>) {
    exists j, i :: 0 <= j < i < |vs| - 1 && vs[j].weight < 0 < vs[i].weight
  }

  /** Unless one is negative, the sums rise by each positive weight in turn. */
  lemma {:induction false} RisingReachesTotal(vs: seq<Variant>)
    requires forall j, i :: 0 <= j < i < |vs| && vs[j].weight < 0 ==> vs[i].weight <= 0
    ensures Reached(vs) == Total(vs)
    ensures (forall j :: 0 <= j < |vs| ==> vs[j].weight >= 0) ==> Sum(vs) == Total(vs)
  {
    if vs != [] {
      var n := |vs| - 1;
      RisingReachesTotal(vs[..n]);
      if vs[n].weight > 0 {
        assert forall j :: 0 <= j < n ==> vs[..n][j].weight >= 0;
      }
      ReachedWithinTotal(vs);
    }
  }

  lemma UnshadowedShare(vs: seq<Variant>, i: nat)
    requires i < |vs| && !Shadowed(vs)
    ensures Share(vs, i) == Max(0, vs[i].weight)
  {
    var before := vs[..i];
    ShareIsTheRise(vs, i);
    RisingReachesTotal(before);
    assert vs[..i + 1][..i] == before;
    if i == |vs| - 1 {
      assert vs[..i + 1] == vs;
    } else {
      RisingReachesTotal(vs[..i + 1]);
      if vs[i].weight > 0 {
        assert forall j :: 0 <= j < i ==> vs[j].weight >= 0;
      } else {
        ReachedWithinTotal(before);
      }
    }
  }

  /** Between a negative weight and the next positive one the sums stay below what was reached. */
  lemma {:induction false} SunkUntilPositive(vs: seq<Variant>, j: nat, k: nat)
    requires j < k <= |vs| && vs[j].weight < 0
    requires forall i :: j < i < k ==> vs[i].weight <= 0
    ensures Sum(vs[..k]) < Reached(vs[..k])
  {
    assert vs[..k][..k - 1] == vs[..k - 1];
    if k == j + 1 {
      ReachedIsHighest(vs, j);
    } else {
      SunkUntilPositive(vs, j, k - 1);
    }
  }

  lemma {:induction false} FirstPositiveAfter(vs: seq<Variant>, j: nat, i: nat) returns (k: nat)
    requires j < i < |vs| && vs[i].weight > 0
    ensures j < k <= i && vs[k].weight > 0 && forall m :: j < m < k ==> vs[m].weight <= 0
    decreases i - j
  {
    k := i;
    if m :| j < m < i && vs[m].weight > 0 {
      k := FirstPositiveAfter(vs, j, m);
    }
  }

  lemma ShadowedShare(vs: seq<Variant>) returns (k: nat)
    requires Shadowed(vs)
    ensures k < |vs| && Share(vs, k) < Max(0, vs[k].weight)
  {
    var j, i :| 0 <= j < i < |vs| - 1 && vs[j].weight < 0 < vs[i].weight;
    k := FirstPositiveAfter(vs, j, i);
    SunkUntilPositive(vs, j, k);
    ShareIsTheRise(vs, k);
    assert vs[..k + 1][..k] == vs[..k];
  }

  /** Every variant gets exactly its weight in draws, and none for a weight that is not positive, exactly when
      no positive weight but the last variant's stands behind a negative one. */
  lemma SharesAreWeightsExactlyWhenUnshadowed(vs: seq<Variant>)
    ensures (forall i :: 0 <= i < |vs| ==> Share(vs, i) == Max(0, vs[i].weight)) <==> !Shadowed(vs)
  {
    if Shadowed(vs) {
      var k := ShadowedShare(vs);
      assert Share(vs, k) != Max(0, vs[k].weight);
    } else {
      forall i | 0 <= i < |vs| ensures Share(vs, i) == Max(0, vs[i].weight) {
        UnshadowedShare(vs, i);
      }
    }
  }

  /** With no negative weight every draw is settled inside the loop: some sum exceeds it. */
  lemma FallbackIsUnreachable(vs: seq<Variant>, draw: nat)
    requires (forall i :: 0 <= i < |vs| ==> vs[i].weight >= 0) && draw < Total(vs)
    ensures draw < Sum(vs)
  {
    RisingReachesTotal(vs);
  }
}
