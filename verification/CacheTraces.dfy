/** Whole runs of the cache: recency order, and why a bigger cache never does worse. */
module CacheTraces {
  import opened Wrappers
  import opened Links
  import opened CacheModel

  datatype Op =
    | Put(domain: string, slug: string, link: Link)
    | Look(domain: string, slug: string)
    | Drop(domain: string, slug: string)
    | Clear

  datatype Timed = Timed(op: Op, at: int)

  function Step(s: seq<Entry>, capacity: nat, ttl: int, e: Timed): Outcome {
    match e.op
    case Put(d, g, l) => Outcome(Set(s, capacity, e.at, d, g, l), None)
    case Look(d, g) => Get(s, ttl, e.at, d, g)
    case Drop(d, g) => Outcome(Delete(s, d, g), None)
    case Clear => Outcome([], None)
  }

  function Run(capacity: nat, ttl: int, trace: seq<Timed>): seq<Entry> {
    if trace == [] then []
    else Step(Run(capacity, ttl, trace[..|trace| - 1]), capacity, ttl, trace[|trace| - 1]).list
  }

  /** What the i-th operation of the trace finds. */
  function HitAt(capacity: nat, ttl: int, trace: seq<Timed>, i: nat): Option<Link>
    requires i < |trace|
  {
    Step(Run(capacity, ttl, trace[..i]), capacity, ttl, trace[i]).hit
  }

  lemma StepKeepsShape(s: seq<Entry>, capacity: nat, ttl: int, e: Timed)
    requires WellFormed(s, capacity) && capacity > 0
    ensures WellFormed(Step(s, capacity, ttl, e).list, capacity)
  {
    match e.op
    case Put(d, g, l) => SetKeepsShape(s, capacity, e.at, d, g, l);
    case Look(d, g) => GetKeepsShape(s, capacity, ttl, e.at, d, g);
    case Drop(d, g) => DeleteKeepsShape(s, capacity, d, g);
    case Clear =>
  }

  /** After any run the keys are distinct and the capacity is respected. */
  lemma {:induction false} RunKeepsShape(capacity: nat, ttl: int, trace: seq<Timed>)
    requires capacity > 0
    ensures WellFormed(Run(capacity, ttl, trace), capacity)
  {
    if trace != [] {
      RunKeepsShape(capacity, ttl, trace[..|trace| - 1]);
      StepKeepsShape(Run(capacity, ttl, trace[..|trace| - 1]), capacity, ttl, trace[|trace| - 1]);
    }
  }

  // ---------- recency ----------

  /** The key an operation uses: what it stores, or what it hits. */
  function Touched(s: seq<Entry>, ttl: int, e: Timed): Option<string> {
    match e.op
    case Put(d, g, _) => Some(FormatCacheKey(d, g))
    case Look(d, g) => if Get(s, ttl, e.at, d, g).hit.Some? then HitKey(s, d, g) else None
    case Drop(_, _) => None
    case Clear => None
  }

  /** The position in the trace of the last operation that used a key. */
  function LastUse(capacity: nat, ttl: int, trace: seq<Timed>, key: string): int {
    if trace == [] then -1
    else
      var before := trace[..|trace| - 1];
      if Touched(Run(capacity, ttl, before), ttl, trace[|trace| - 1]) == Some(key) then |trace| - 1
      else LastUse(capacity, ttl, before, key)
  }

  ghost predicate ByRecency(s: seq<Entry>, use: string -> int, bound: int) {
    && (forall i :: 0 <= i < |s| ==> use(s[i].key) < bound)
    && (forall i, j :: 0 <= i < j < |s| ==> use(s[i].key) > use(s[j].key))
  }

  lemma FrontKeepsRecency(e: Entry, rest: seq<Entry>, use: string -> int, bound: int)
    requires ByRecency(rest, use, use(e.key)) && use(e.key) < bound
    ensures ByRecency([e] + rest, use, bound)
  {
  }

  lemma {:induction false} WithoutKeepsRecency(s: seq<Entry>, key: string, use: string -> int, bound: int)
    requires ByRecency(s, use, bound)
    ensures ByRecency(Without(s, key), use, bound)
  {
    if s != [] {
      var rest := s[1..];
      assert ByRecency(rest, use, use(s[0].key)) by {
        assert forall i :: 0 <= i < |rest| ==> rest[i] == s[i + 1];
      }
      WithoutKeepsRecency(rest, key, use, use(s[0].key));
      FrontKeepsRecency(s[0], Without(rest, key), use, bound);
    }
  }

  lemma IdleKeepsRecency(s: seq<Entry>, use: string -> int, next: string -> int, n: int)
    requires ByRecency(s, use, n) && forall k :: next(k) == use(k)
    ensures ByRecency(s, next, n + 1)
  {
  }

  lemma PutKeepsRecency(s: seq<Entry>, capacity: nat, at: int, d: string, g: string, l: Link,
                         use: string -> int, next: string -> int, n: int)
    requires Distinct(s) && ByRecency(s, use, n)
    requires forall k :: next(k) == if k == FormatCacheKey(d, g) then n else use(k)
    ensures ByRecency(Set(s, capacity, at, d, g, l), next, n + 1)
  {
    var key := FormatCacheKey(d, g);
    if Has(s, key) {
      WithoutKeepsRecency(s, key, use, n);
      WithoutKeepsDistinct(s, key);
      ConsKeepsRecency(Entry(key, l, at), Without(s, key), use, next, n);
    } else {
      var rest := if |s| >= capacity then DropLast(s) else s;
      assert ByRecency(rest, use, n);
      assert !Has(rest, key);
      ConsKeepsRecency(Entry(key, l, at), rest, use, next, n);
    }
  }

  lemma LookKeepsRecency(s: seq<Entry>, ttl: int, at: int, d: string, g: string, use: string -> int,
                         next: string -> int, n: int)
    requires Distinct(s) && ByRecency(s, use, n)
    requires forall k :: next(k) == if Touched(s, ttl, Timed(Look(d, g), at)) == Some(k) then n else use(k)
    ensures ByRecency(Get(s, ttl, at, d, g).list, next, n + 1)
  {
    if HitKey(s, d, g).Some? {
      var k := HitKey(s, d, g).value;
      WithoutKeepsRecency(s, k, use, n);
      WithoutKeepsDistinct(s, k);
      if Get(s, ttl, at, d, g).hit.Some? {
        ConsKeepsRecency(Find(s, k), Without(s, k), use, next, n);
      } else {
        IdleKeepsRecency(Without(s, k), use, next, n);
      }
    } else {
      IdleKeepsRecency(s, use, next, n);
    }
  }

  /** The operation's own key comes to the front; the others keep their last use. */
  lemma StepKeepsRecency(s: seq<Entry>, capacity: nat, ttl: int, e: Timed, use: string -> int, next: string -> int,
                         n: int)
    requires Distinct(s) && ByRecency(s, use, n)
    requires forall k :: next(k) == if Touched(s, ttl, e) == Some(k) then n else use(k)
    ensures ByRecency(Step(s, capacity, ttl, e).list, next, n + 1)
  {
    match e.op
    case Put(d, g, l) => PutKeepsRecency(s, capacity, e.at, d, g, l, use, next, n);
    case Look(d, g) => LookKeepsRecency(s, ttl, e.at, d, g, use, next, n);
    case Drop(d, g) =>
      WithoutKeepsRecency(s, FormatCacheKey(d, g), use, n);
      WithoutKeepsRecency(Without(s, FormatCacheKey(d, g)), g, use, n);
      IdleKeepsRecency(Delete(s, d, g), use, next, n);
    case Clear =>
  }

  lemma ConsKeepsRecency(e: Entry, rest: seq<Entry>, use: string -> int, next: string -> int, n: int)
    requires ByRecency(rest, use, n) && !Has(rest, e.key)
    requires next(e.key) == n && forall k :: k != e.key ==> next(k) == use(k)
    ensures ByRecency([e] + rest, next, n + 1)
  {
    var r := [e] + rest;
    forall i | 0 <= i < |rest| ensures next(r[i + 1].key) == use(rest[i].key) < n {
      assert rest[i].key != e.key;
    }
  }

  /** Most recent first is not only the name of the order: along any run the list is sorted by
      the last time each key was stored or found, so the entry evicted is the one idle longest. */
  lemma {:induction false} ListIsSortedByLastUse(capacity: nat, ttl: int, trace: seq<Timed>)
    requires capacity > 0
    ensures forall i, j :: 0 <= i < j < |Run(capacity, ttl, trace)| ==>
      LastUse(capacity, ttl, trace, Run(capacity, ttl, trace)[i].key)
      > LastUse(capacity, ttl, trace, Run(capacity, ttl, trace)[j].key)
  {
    RecencyInvariant(capacity, ttl, trace);
  }

  lemma {:induction false} RecencyInvariant(capacity: nat, ttl: int, trace: seq<Timed>)
    requires capacity > 0
    ensures ByRecency(Run(capacity, ttl, trace), k => LastUse(capacity, ttl, trace, k), |trace|)
  {
    if trace != [] {
      var before := trace[..|trace| - 1];
      RecencyInvariant(capacity, ttl, before);
      RunKeepsShape(capacity, ttl, before);
      StepKeepsRecency(Run(capacity, ttl, before), capacity, ttl, trace[|trace| - 1],
                       k => LastUse(capacity, ttl, before, k), k => LastUse(capacity, ttl, trace, k), |before|);
    }
  }
}
