/** A larger cache fed the same operations holds everything a smaller one does, in the same order:
    no capacity anomaly. The one exception is a lookup that falls back to the root domain in the
    small cache only. */
module CacheInclusion {
  import opened Wrappers
  import opened Links
  import opened CacheModel
  import opened CacheTraces

  /** The subsequence of entries whose key is in the set. */
  function Only(s: seq<Entry>, keys: set<string>): (r: seq<Entry>)
    ensures |r| <= |s|
  {
    if s == [] then []
    else if s[0].key in keys then [s[0]] + Only(s[1..], keys)
    else Only(s[1..], keys)
  }

  /** The small list is a subsequence of the large one, which is not too much longer. */
  ghost predicate Included(small: seq<Entry>, large: seq<Entry>, slack: nat) {
    (exists keys :: small == Only(large, keys)) && |large| - |small| <= slack
  }

  // ---------- the algebra of removing and selecting ----------

  lemma {:induction false} OnlyWithout(s: seq<Entry>, keys: set<string>, k: string)
    ensures Without(Only(s, keys), k) == Only(s, keys - {k})
    ensures Only(Without(s, k), keys) == Only(s, keys - {k})
  {
    if s != [] {
      OnlyWithout(s[1..], keys, k);
      if s[0].key != k {
        assert ([s[0]] + Without(s[1..], k))[1..] == Without(s[1..], k);
        assert ([s[0]] + Only(s[1..], keys))[1..] == Only(s[1..], keys);
      } else {
        assert ([s[0]] + Only(s[1..], keys))[1..] == Only(s[1..], keys);
      }
    }
  }

  lemma OnlyCons(e: Entry, s: seq<Entry>, keys: set<string>)
    ensures Only([e] + s, keys) == if e.key in keys then [e] + Only(s, keys) else Only(s, keys)
  {
    assert ([e] + s)[1..] == s;
  }

  lemma {:induction false} OnlySnoc(s: seq<Entry>, e: Entry, keys: set<string>)
    ensures Only(s + [e], keys) == if e.key in keys then Only(s, keys) + [e] else Only(s, keys)
  {
    if s == [] {
      assert s + [e] == [e];
    } else {
      OnlySnoc(s[1..], e, keys);
      assert (s + [e])[1..] == s[1..] + [e];
    }
  }

  lemma {:induction false} OnlyHas(s: seq<Entry>, keys: set<string>, k: string)
    ensures Has(Only(s, keys), k) <==> Has(s, k) && k in keys
    ensures Has(Only(s, keys), k) ==> Find(Only(s, keys), k) == Find(s, k)
  {
    if s != [] {
      OnlyHas(s[1..], keys, k);
      HasCons(s[0], s[1..], k);
      assert s == [s[0]] + s[1..];
      if s[0].key in keys {
        HasCons(s[0], Only(s[1..], keys), k);
        assert ([s[0]] + Only(s[1..], keys))[1..] == Only(s[1..], keys);
      }
    }
  }

  lemma HasCons(e: Entry, s: seq<Entry>, k: string)
    ensures Has([e] + s, k) <==> e.key == k || Has(s, k)
  {
    assert ([e] + s)[0] == e;
    if i :| 0 <= i < |s| && s[i].key == k {
      assert ([e] + s)[i + 1].key == k;
    }
    if i :| 0 <= i < |[e] + s| && ([e] + s)[i].key == k {
      assert i > 0 ==> s[i - 1].key == k;
    }
  }

  lemma WithoutSize(s: seq<Entry>, k: string)
    requires Distinct(s)
    ensures |Without(s, k)| == if Has(s, k) then |s| - 1 else |s|
  {
    if i :| 0 <= i < |s| && s[i].key == k {
      WithoutCutsOne(s, i);
    } else {
      WithoutAbsent(s, k);
    }
  }

  /** If the last entry of the large list is in the small one at all, it is last there too. */
  lemma LastOfBoth(large: seq<Entry>, keys: set<string>)
    requires large != []
    ensures var small := Only(large, keys);
            Has(small, large[|large| - 1].key) ==>
              small != [] && small[|small| - 1] == large[|large| - 1]
  {
    var x := large[|large| - 1];
    OnlySnoc(large[..|large| - 1], x, keys);
    assert large == large[..|large| - 1] + [x];
    OnlyHas(large, keys, x.key);
  }

  lemma IncludedBy(small: seq<Entry>, large: seq<Entry>, keys: set<string>, slack: nat)
    requires small == Only(large, keys) && |large| - |small| <= slack
    ensures Included(small, large, slack)
  {
  }

  // ---------- one operation ----------

  lemma WithoutKeepsIncluded(small: seq<Entry>, large: seq<Entry>, slack: nat, k: string)
    requires Included(small, large, slack) && Distinct(small) && Distinct(large)
    ensures Included(Without(small, k), Without(large, k), slack)
    ensures Has(small, k) ==> Has(large, k) && Find(small, k) == Find(large, k)
  {
    var keys :| small == Only(large, keys);
    OnlyWithout(large, keys, k);
    OnlyWithout(large, keys - {k}, k);
    assert keys - {k} - {k} == keys - {k};
    OnlyHas(large, keys, k);
    WithoutSize(small, k);
    WithoutSize(large, k);
    IncludedBy(Without(small, k), Without(large, k), keys - {k}, slack);
  }

  /** Both lists get the same new front entry, whose key neither holds any more. */
  lemma ConsKeepsIncluded(small: seq<Entry>, large: seq<Entry>, slack: nat, e: Entry)
    requires Included(small, large, slack) && !Has(small, e.key) && !Has(large, e.key)
    ensures Included([e] + small, [e] + large, slack)
  {
    var keys :| small == Only(large, keys);
    OnlyWithout(large, keys, e.key);
    WithoutAbsent(small, e.key);
    OnlyCons(e, large, keys + {e.key});
    OnlyAgrees(large, keys, e.key);
    IncludedBy([e] + small, [e] + large, keys + {e.key}, slack);
  }

  lemma {:induction false} OnlyAgrees(s: seq<Entry>, keys: set<string>, k: string)
    requires !Has(s, k) || k in keys
    ensures Only(s, keys + {k}) == Only(s, keys)
  {
    if s != [] {
      assert s == [s[0]] + s[1..];
      HasCons(s[0], s[1..], k);
      OnlyAgrees(s[1..], keys, k);
    }
  }

  /** Making the list forget its last entry when it is full. */
  function Room(s: seq<Entry>, capacity: nat): seq<Entry> {
    if |s| >= capacity then DropLast(s) else s
  }

  lemma RoomIsRemoval(s: seq<Entry>, capacity: nat)
    requires Distinct(s) && 0 < capacity && |s| <= capacity
    ensures |Room(s, capacity)| == if |s| == capacity then |s| - 1 else |s|
    ensures |s| == capacity ==> Room(s, capacity) == Without(s, s[|s| - 1].key)
  {
    if |s| == capacity {
      EvictionIsRemoval(s);
    }
  }

  /** The small list makes room for a key; the large one may already have the key. */
  lemma SmallEviction(small: seq<Entry>, large: seq<Entry>, n: nat, m: nat)
    requires WellFormed(small, n) && WellFormed(large, m) && 0 < n <= m
    requires exists keys :: small == Only(large, keys)
    requires |large| < m
    requires |large| - |small| < m - n || |small| == n
    ensures Included(Room(small, n), large, m - n)
  {
    var keys :| small == Only(large, keys);
    RoomIsRemoval(small, n);
    if |small| == n {
      OnlyWithout(large, keys, small[n - 1].key);
      IncludedBy(Room(small, n), large, keys - {small[n - 1].key}, m - n);
    } else {
      IncludedBy(small, large, keys, m - n);
    }
  }

  /** Dropping the small list's last and the large one's last agrees when they are the same or the latter is not in
      the small list. */
  lemma DropFromBoth(small: seq<Entry>, large: seq<Entry>, keys: set<string>, x: string, y: string)
    requires Distinct(small) && small == Only(large, keys) && (Has(small, x) ==> x == y)
    ensures Without(small, y) == Only(Without(large, x), keys - {y})
  {
    OnlyWithout(large, keys, y);
    OnlyWithout(large, keys - {y}, x);
    if x == y {
      WithoutTwice(small, x);
    } else {
      OnlyHas(large, keys, x);
      OnlyHas(large, keys - {y}, x);
      WithoutAbsent(Without(small, y), x);
    }
  }

  lemma FullEvictions(small: seq<Entry>, large: seq<Entry>, keys: set<string>, n: nat, m: nat)
    requires WellFormed(small, n) && WellFormed(large, m) && 0 < n <= m
    requires small == Only(large, keys) && |small| == n && |large| == m
    ensures Included(Room(small, n), Room(large, m), m - n)
  {
    RoomIsRemoval(small, n);
    RoomIsRemoval(large, m);
    var x, y := large[m - 1].key, small[n - 1].key;
    LastOfBoth(large, keys);
    DropFromBoth(small, large, keys, x, y);
    IncludedBy(Room(small, n), Room(large, m), keys - {y}, m - n);
  }

  /** A new key makes both lists drop their last entry if they are full. */
  lemma BothEvictions(small: seq<Entry>, large: seq<Entry>, n: nat, m: nat)
    requires WellFormed(small, n) && WellFormed(large, m) && 0 < n <= m
    requires Included(small, large, m - n)
    ensures Included(Room(small, n), Room(large, m), m - n)
  {
    if |large| == m {
      var keys :| small == Only(large, keys);
      FullEvictions(small, large, keys, n, m);
    } else if |small| == n {
      SmallEviction(small, large, n, m);
    } else {
      assert Room(small, n) == small && Room(large, m) == large;
    }
  }

  lemma RoomHasNot(s: seq<Entry>, capacity: nat, k: string)
    requires !Has(s, k)
    ensures !Has(Room(s, capacity), k)
  {
  }

  lemma PutKeepsIncluded(small: seq<Entry>, large: seq<Entry>, n: nat, m: nat, at: int, d: string, g: string, l: Link)
    requires WellFormed(small, n) && WellFormed(large, m) && 0 < n <= m
    requires Included(small, large, m - n)
    ensures Included(Set(small, n, at, d, g, l), Set(large, m, at, d, g, l), m - n)
  {
    var key := FormatCacheKey(d, g);
    var e := Entry(key, l, at);
    WithoutKeepsDistinct(small, key);
    WithoutKeepsDistinct(large, key);
    WithoutKeepsIncluded(small, large, m - n, key);
    if Has(small, key) {
      ConsKeepsIncluded(Without(small, key), Without(large, key), m - n, e);
    } else if Has(large, key) {
      WithoutAbsent(small, key);
      WithoutSize(large, key);
      SmallEviction(small, Without(large, key), n, m);
      RoomHasNot(small, n, key);
      ConsKeepsIncluded(Room(small, n), Without(large, key), m - n, e);
    } else {
      BothEvictions(small, large, n, m);
      RoomHasNot(small, n, key);
      RoomHasNot(large, m, key);
      ConsKeepsIncluded(Room(small, n), Room(large, m), m - n, e);
    }
  }

  /** The small cache answers from the root domain while the large one still has the domain's own entry. */
  predicate LoneFallback(small: seq<Entry>, large: seq<Entry>, d: string, g: string) {
    d != "" && !Has(small, FormatCacheKey(d, g)) && Has(small, g) && Has(large, FormatCacheKey(d, g))
  }

  lemma LookKeepsIncluded(small: seq<Entry>, large: seq<Entry>, n: nat, m: nat, ttl: int, at: int, d: string, g: string)
    requires WellFormed(small, n) && WellFormed(large, m) && 0 < n <= m
    requires Included(small, large, m - n) && !LoneFallback(small, large, d, g)
    ensures Included(Get(small, ttl, at, d, g).list, Get(large, ttl, at, d, g).list, m - n)
    ensures Get(small, ttl, at, d, g).hit.Some? ==> Get(large, ttl, at, d, g).hit == Get(small, ttl, at, d, g).hit
  {
    WithoutKeepsIncluded(small, large, m - n, FormatCacheKey(d, g));
    WithoutKeepsIncluded(small, large, m - n, g);
    if HitKey(large, d, g).Some? {
      var k := HitKey(large, d, g).value;
      WithoutKeepsDistinct(small, k);
      WithoutKeepsDistinct(large, k);
      if Has(small, k) {
        ConsKeepsIncluded(Without(small, k), Without(large, k), m - n, Find(large, k));
      } else {
        WithoutAbsent(small, k);
        LargeOnlyHit(small, large, m - n, k);
      }
    }
  }

  /** The large cache moves or drops an entry the small one does not have. */
  lemma LargeOnlyHit(small: seq<Entry>, large: seq<Entry>, slack: nat, k: string)
    requires Included(small, large, slack) && !Has(small, k) && Has(large, k) && Distinct(large)
    ensures Included(small, Without(large, k), slack)
    ensures Included(small, [Find(large, k)] + Without(large, k), slack)
  {
    var keys :| small == Only(large, keys);
    OnlyWithout(large, keys, k);
    OnlyWithout(large, keys - {k}, k);
    assert keys - {k} - {k} == keys - {k};
    WithoutAbsent(small, k);
    WithoutSize(large, k);
    OnlyCons(Find(large, k), Without(large, k), keys - {k});
    IncludedBy(small, Without(large, k), keys - {k}, slack);
    IncludedBy(small, [Find(large, k)] + Without(large, k), keys - {k}, slack);
  }

  // ---------- whole runs ----------

  /** At no point of the run does a lookup fall back to the root domain in the small cache alone. */
  ghost predicate NoLoneFallback(n: nat, m: nat, ttl: int, trace: seq<Timed>) {
    forall i :: 0 <= i < |trace| && trace[i].op.Look? ==>
      !LoneFallback(Run(n, ttl, trace[..i]), Run(m, ttl, trace[..i]), trace[i].op.domain, trace[i].op.slug)
  }

  predicate RootLookupsOnly(trace: seq<Timed>) {
    forall i :: 0 <= i < |trace| && trace[i].op.Look? ==> trace[i].op.domain == ""
  }

  lemma StepKeepsIncluded(small: seq<Entry>, large: seq<Entry>, n: nat, m: nat, ttl: int, e: Timed)
    requires WellFormed(small, n) && WellFormed(large, m) && 0 < n <= m
    requires Included(small, large, m - n)
    requires e.op.Look? ==> !LoneFallback(small, large, e.op.domain, e.op.slug)
    ensures Included(Step(small, n, ttl, e).list, Step(large, m, ttl, e).list, m - n)
    ensures Step(small, n, ttl, e).hit.Some? ==> Step(large, m, ttl, e).hit == Step(small, n, ttl, e).hit
  {
    match e.op
    case Put(d, g, l) => PutKeepsIncluded(small, large, n, m, e.at, d, g, l);
    case Look(d, g) => LookKeepsIncluded(small, large, n, m, ttl, e.at, d, g);
    case Drop(d, g) =>
      var k := FormatCacheKey(d, g);
      WithoutKeepsIncluded(small, large, m - n, k);
      WithoutKeepsDistinct(small, k);
      WithoutKeepsDistinct(large, k);
      WithoutKeepsIncluded(Without(small, k), Without(large, k), m - n, g);
    case Clear => IncludedBy([], [], {}, m - n);
  }

  lemma {:induction false} RunsStayIncluded(n: nat, m: nat, ttl: int, trace: seq<Timed>)
    requires 0 < n <= m && NoLoneFallback(n, m, ttl, trace)
    ensures Included(Run(n, ttl, trace), Run(m, ttl, trace), m - n)
  {
    if trace == [] {
      IncludedBy([], [], {}, m - n);
    } else {
      var before := trace[..|trace| - 1];
      PrefixNoLoneFallback(n, m, ttl, trace, |trace| - 1);
      RunsStayIncluded(n, m, ttl, before);
      RunKeepsShape(n, ttl, before);
      RunKeepsShape(m, ttl, before);
      StepKeepsIncluded(Run(n, ttl, before), Run(m, ttl, before), n, m, ttl, trace[|trace| - 1]);
    }
  }

  lemma PrefixNoLoneFallback(n: nat, m: nat, ttl: int, trace: seq<Timed>, i: nat)
    requires NoLoneFallback(n, m, ttl, trace) && i <= |trace|
    ensures NoLoneFallback(n, m, ttl, trace[..i])
  {
    forall j | 0 <= j < i && trace[..i][j].op.Look?
      ensures !LoneFallback(Run(n, ttl, trace[..i][..j]), Run(m, ttl, trace[..i][..j]), trace[..i][j].op.domain,
              trace[..i][j].op.slug)
    {
      assert trace[..i][..j] == trace[..j];
    }
  }

  /** The same run on a small and a large cache: the small list is a subsequence of the large one,
      and everything the small cache finds, the large one finds as well. */
  lemma NoCapacityAnomaly(n: nat, m: nat, ttl: int, trace: seq<Timed>)
    requires 0 < n <= m && NoLoneFallback(n, m, ttl, trace)
    ensures Included(Run(n, ttl, trace), Run(m, ttl, trace), m - n)
    ensures forall i :: 0 <= i < |trace| && HitAt(n, ttl, trace, i).Some? ==>
            HitAt(m, ttl, trace, i) == HitAt(n, ttl, trace, i)
  {
    RunsStayIncluded(n, m, ttl, trace);
    forall i | 0 <= i < |trace| && HitAt(n, ttl, trace, i).Some?
      ensures HitAt(m, ttl, trace, i) == HitAt(n, ttl, trace, i)
    {
      PrefixNoLoneFallback(n, m, ttl, trace, i);
      RunsStayIncluded(n, m, ttl, trace[..i]);
      RunKeepsShape(n, ttl, trace[..i]);
      RunKeepsShape(m, ttl, trace[..i]);
      StepKeepsIncluded(Run(n, ttl, trace[..i]), Run(m, ttl, trace[..i]), n, m, ttl, trace[i]);
    }
  }

  /** Lookups for the default host never fall back, so for them the guarantee is unconditional. */
  lemma NoCapacityAnomalyForRootLookups(n: nat, m: nat, ttl: int, trace: seq<Timed>)
    requires 0 < n <= m && RootLookupsOnly(trace)
    ensures Included(Run(n, ttl, trace), Run(m, ttl, trace), m - n)
    ensures forall i :: 0 <= i < |trace| && HitAt(n, ttl, trace, i).Some? ==>
            HitAt(m, ttl, trace, i) == HitAt(n, ttl, trace, i)
  {
    NoCapacityAnomaly(n, m, ttl, trace);
  }

  // ---------- the exception is exact ----------

  /** Every entry sits under the key of its own link. */
  predicate Filed(s: seq<Entry>) {
    forall i :: 0 <= i < |s| ==> s[i].key == FormatCacheKey(s[i].link.domain, s[i].link.slug)
  }

  /** As long as the caches are included, their entries under their own keys, a hit of the small one is missed or
      answered differently by the large one exactly on a lone fallback; which may end the inclusion. */
  lemma LoneFallbackIsTheOnlyAnomaly(small: seq<Entry>, large: seq<Entry>, n: nat, m: nat, ttl: int, at: int,
                                     d: string, g: string)
    requires WellFormed(small, n) && WellFormed(large, m) && 0 < n <= m
    requires Included(small, large, m - n) && Filed(small) && Filed(large)
    requires Get(small, ttl, at, d, g).hit.Some?
    ensures Get(large, ttl, at, d, g).hit == Get(small, ttl, at, d, g).hit <==> !LoneFallback(small, large, d, g)
  {
    if LoneFallback(small, large, d, g) {
      var key := FormatCacheKey(d, g);
      assert key != g;
      assert Find(small, g).key == g && Find(large, key).key == key;
    } else {
      LookKeepsIncluded(small, large, n, m, ttl, at, d, g);
    }
  }

  // ---------- which lookups are safe, over all runs ----------

  predicate LooksWithin(trace: seq<Timed>, asked: iset<(string, string)>) {
    forall i :: 0 <= i < |trace| && trace[i].op.Look? ==> (trace[i].op.domain, trace[i].op.slug) in asked
  }

  /** Whatever the small cache finds, the large one finds as well. */
  ghost predicate AnomalyFree(n: nat, m: nat, ttl: int, trace: seq<Timed>) {
    forall i :: 0 <= i < |trace| && HitAt(n, ttl, trace, i).Some? ==> HitAt(m, ttl, trace, i) == HitAt(n, ttl, trace, i)
  }

  const OWN := BLANK
  const ROOT := BLANK.(title := "root")

  /** A slug of its own length. */
  function Filler(length: nat): (slug: string)
    ensures |slug| == length
  {
    seq(length, _ => 'f')
  }

  /** The link of (d, g), and k others stored after it. */
  function Fill(d: string, g: string, k: nat): (trace: seq<Timed>)
    ensures |trace| == k + 1 && forall i :: 0 <= i < |trace| ==> trace[i].op.Put?
  {
    if k == 0 then [Timed(Put(d, g, OWN), 0)]
    else Fill(d, g, k - 1) + [Timed(Put("", Filler(|d| + |g| + 1 + k), OWN), 0)]
  }

  function Filled(d: string, g: string, k: nat): (list: seq<Entry>)
    ensures |list| == k && forall e :: e in list ==> |e.key| > |d| + |g| + 1 && |e.key| <= |d| + |g| + 1 + k
  {
    if k == 0 then [] else [Entry(Filler(|d| + |g| + 1 + k), OWN, 0)] + Filled(d, g, k - 1)
  }

  lemma RunSnoc(capacity: nat, ttl: int, trace: seq<Timed>, e: Timed)
    ensures Run(capacity, ttl, trace + [e]) == Step(Run(capacity, ttl, trace), capacity, ttl, e).list
  {
    assert (trace + [e])[..|trace|] == trace;
  }

  lemma Absent(s: seq<Entry>, key: string)
    requires forall e :: e in s ==> e.key != key
    ensures !Has(s, key)
  {
    HasIsMembership(s, key);
  }

  lemma PutNew(capacity: nat, s: seq<Entry>, d: string, g: string, l: Link)
    requires !Has(s, FormatCacheKey(d, g))
    ensures Set(s, capacity, 0, d, g, l)
            == [Entry(FormatCacheKey(d, g), l, 0)] + if |s| >= capacity then DropLast(s) else s
  {
  }

  /** The domain's own link behind k others. */
  function Pile(d: string, g: string, k: nat): (list: seq<Entry>)
    ensures |list| == k + 1 && list[k] == Entry(FormatCacheKey(d, g), OWN, 0) && list[..k] == Filled(d, g, k)
    ensures forall e :: e in list ==> |e.key| <= |d| + |g| + 1 + k
    ensures d != "" ==> forall e :: e in list ==> |e.key| > |g|
  {
    Filled(d, g, k) + [Entry(FormatCacheKey(d, g), OWN, 0)]
  }

  lemma OneMoreFills(capacity: nat, d: string, g: string, k: nat)
    requires 0 < k < capacity
    ensures Set(Pile(d, g, k - 1), capacity, 0, "", Filler(|d| + |g| + 1 + k), OWN) == Pile(d, g, k)
  {
    var slug := Filler(|d| + |g| + 1 + k);
    Absent(Pile(d, g, k - 1), slug);
    PutNew(capacity, Pile(d, g, k - 1), "", slug, OWN);
  }

  /** While there is room the entries pile up. */
  lemma {:induction false} FillPilesUp(capacity: nat, ttl: int, d: string, g: string, k: nat)
    requires k < capacity
    ensures Run(capacity, ttl, Fill(d, g, k)) == Pile(d, g, k)
  {
    if k == 0 {
      assert Fill(d, g, 0) == [] + [Timed(Put(d, g, OWN), 0)];
      RunSnoc(capacity, ttl, [], Timed(Put(d, g, OWN), 0));
    } else {
      FillPilesUp(capacity, ttl, d, g, k - 1);
      RunSnoc(capacity, ttl, Fill(d, g, k - 1), Timed(Put("", Filler(|d| + |g| + 1 + k), OWN), 0));
      OneMoreFills(capacity, d, g, k);
    }
  }

  function Anomalous(d: string, g: string, n: nat): (trace: seq<Timed>)
    requires n > 0
  {
    Fill(d, g, n - 1) + [Timed(Put("", g, ROOT), 0)] + [Timed(Look(d, g), 0)]
  }

  /** The root's link pushes out the domain's own where that is the n-th, and only there. */
  lemma RootPushesOut(capacity: nat, ttl: int, d: string, g: string, n: nat)
    requires 0 < n <= capacity && d != ""
    ensures Run(capacity, ttl, Fill(d, g, n - 1) + [Timed(Put("", g, ROOT), 0)])
            == [Entry(g, ROOT, 0)] + if capacity == n then Filled(d, g, n - 1) else Pile(d, g, n - 1)
  {
    FillPilesUp(capacity, ttl, d, g, n - 1);
    RunSnoc(capacity, ttl, Fill(d, g, n - 1), Timed(Put("", g, ROOT), 0));
    Absent(Pile(d, g, n - 1), g);
    PutNew(capacity, Pile(d, g, n - 1), "", g, ROOT);
  }

  lemma SmallFindsRoot(ttl: int, d: string, g: string, n: nat)
    requires 0 < n && d != "" && ttl >= 0
    ensures Get([Entry(g, ROOT, 0)] + Filled(d, g, n - 1), ttl, 0, d, g).hit == Some(ROOT)
  {
    var list := [Entry(g, ROOT, 0)] + Filled(d, g, n - 1);
    Absent(list, FormatCacheKey(d, g));
    assert list[0].key == g;
  }

  lemma LargeFindsOwn(ttl: int, d: string, g: string, n: nat)
    requires 0 < n && d != "" && ttl >= 0
    ensures Get([Entry(g, ROOT, 0)] + Pile(d, g, n - 1), ttl, 0, d, g).hit == Some(OWN)
  {
    var list, key := [Entry(g, ROOT, 0)] + Pile(d, g, n - 1), FormatCacheKey(d, g);
    assert list[n] == Entry(key, OWN, 0);
    HasIsMembership(list, key);
    assert forall e :: e in list && e.key == key ==> e == Entry(key, OWN, 0);
  }

  lemma LookFinds(capacity: nat, ttl: int, d: string, g: string, n: nat)
    requires 0 < n <= capacity && d != "" && ttl >= 0
    ensures HitAt(capacity, ttl, Anomalous(d, g, n), n + 1) == Some(if capacity == n then ROOT else OWN)
  {
    assert Anomalous(d, g, n)[..n + 1] == Fill(d, g, n - 1) + [Timed(Put("", g, ROOT), 0)];
    RootPushesOut(capacity, ttl, d, g, n);
    SmallFindsRoot(ttl, d, g, n);
    LargeFindsOwn(ttl, d, g, n);
  }

  /** One trace for every two capacities and every address of a domain. */
  lemma DomainLookupsAreAnomalous(n: nat, m: nat, ttl: int, d: string, g: string)
    requires 0 < n < m && d != "" && ttl >= 0
    ensures !AnomalyFree(n, m, ttl, Anomalous(d, g, n))
  {
    LookFinds(n, ttl, d, g, n);
    LookFinds(m, ttl, d, g, n);
  }

  /** On whatever addresses the lookups are for, a larger cache never does worse, on any trace, exactly when all
      of them are for the root. */
  lemma AnomalyFreeExactlyForRootLookups(n: nat, m: nat, ttl: int, asked: iset<(string, string)>)
    requires 0 < n < m && ttl >= 0
    ensures (forall trace :: LooksWithin(trace, asked) ==> AnomalyFree(n, m, ttl, trace))
            <==> forall q :: q in asked ==> q.0 == ""
  {
    if q :| q in asked && q.0 != "" {
      DomainLookupsAreAnomalous(n, m, ttl, q.0, q.1);
      assert LooksWithin(Anomalous(q.0, q.1, n), asked);
    } else {
      forall trace | LooksWithin(trace, asked) ensures AnomalyFree(n, m, ttl, trace) {
        NoCapacityAnomalyForRootLookups(n, m, ttl, trace);
      }
    }
  }
}
