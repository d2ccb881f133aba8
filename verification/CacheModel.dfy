/** The LRU/TTL link cache as a most-recent-first sequence: what each operation does to it. */
module CacheModel {
  import opened Wrappers
  import opened Links

  datatype Entry = Entry(key: string, link: Link, cachedAt: int)

  /** The list an operation leaves behind, and the link it found if it was a lookup. */
  datatype Outcome = Outcome(list: seq<Entry>, hit: Option<Link>)

  predicate Has(s: seq<Entry>, key: string) {
    exists i :: 0 <= i < |s| && s[i].key == key
  }

  predicate Distinct(s: seq<Entry>) {
    forall i, j :: 0 <= i < j < |s| ==> s[i].key != s[j].key
  }

  /** Every key once, and no more entries than the capacity. */
  predicate WellFormed(s: seq<Entry>, capacity: nat) {
    Distinct(s) && |s| <= capacity
  }

  function Find(s: seq<Entry>, key: string): (e: Entry)
    requires Has(s, key)
    ensures e in s && e.key == key
  {
    if s[0].key == key then s[0] else Find(s[1..], key)
  }

  function Without(s: seq<Entry>, key: string): (r: seq<Entry>)
    ensures |r| <= |s|
  {
    if s == [] then []
    else if s[0].key == key then Without(s[1..], key)
    else [s[0]] + Without(s[1..], key)
  }

  // ---------- the operations ----------

  /** The key a lookup lands on: its own, or failing that the root domain's. */
  function HitKey(s: seq<Entry>, domain: string, slug: string): Option<string> {
    if Has(s, FormatCacheKey(domain, slug)) then Some(FormatCacheKey(domain, slug))
    else if domain != "" && Has(s, slug) then Some(slug)
    else None
  }

  function Get(s: seq<Entry>, ttl: int, now: int, domain: string, slug: string): Outcome {
    match HitKey(s, domain, slug)
    case None => Outcome(s, None)
    case Some(k) =>
      var e := Find(s, k);
      if now - e.cachedAt > ttl then Outcome(Without(s, k), None)
      else Outcome([e] + Without(s, k), Some(e.link))
  }

  function DropLast(s: seq<Entry>): seq<Entry> {
    if s == [] then [] else s[..|s| - 1]
  }

  function Set(s: seq<Entry>, capacity: nat, now: int, domain: string, slug: string, link: Link): seq<Entry> {
    var key := FormatCacheKey(domain, slug);
    var rest :=
      if Has(s, key) then Without(s, key)
      else if |s| >= capacity then DropLast(s)
      else s;
    [Entry(key, link, now)] + rest
  }

  function Delete(s: seq<Entry>, domain: string, slug: string): seq<Entry> {
    Without(Without(s, FormatCacheKey(domain, slug)), slug)
  }

  // ---------- facts about the list ----------

  lemma {:induction false} WithoutMembers(s: seq<Entry>, key: string)
    ensures forall e :: e in Without(s, key) <==> e in s && e.key != key
  {
    if s != [] {
      WithoutMembers(s[1..], key);
      assert s == [s[0]] + s[1..];
    }
  }

  lemma {:induction false} WithoutKeepsDistinct(s: seq<Entry>, key: string)
    requires Distinct(s)
    ensures Distinct(Without(s, key))
    ensures Has(s, key) ==> |Without(s, key)| < |s|
    ensures !Has(Without(s, key), key)
  {
    if s == [] {
    } else if s[0].key == key {
      WithoutKeepsDistinct(s[1..], key);
    } else {
      WithoutKeepsDistinct(s[1..], key);
      var r := Without(s[1..], key);
      assert !Has(r, s[0].key) by {
        WithoutMembers(s[1..], key);
        HasIsMembership(r, s[0].key);
      }
      ConsKeepsDistinct(s[0], r);
      if i :| 0 <= i < |s| && s[i].key == key {
        assert s[1..][i - 1].key == key;
      }
    }
  }

  /** Removing a key is cutting out the one position that holds it. */
  lemma {:induction false} WithoutCutsOne(s: seq<Entry>, k: nat)
    requires Distinct(s) && k < |s|
    ensures Without(s, s[k].key) == s[..k] + s[k + 1..]
    ensures Find(s, s[k].key) == s[k]
  {
    if k == 0 {
      WithoutAbsent(s[1..], s[0].key);
      assert s[..0] + s[1..] == s[1..];
    } else {
      WithoutCutsOne(s[1..], k - 1);
      assert s[..k] + s[k + 1..] == [s[0]] + (s[1..][..k - 1] + s[1..][k..]);
    }
  }

  lemma {:induction false} WithoutAbsent(s: seq<Entry>, key: string)
    requires !Has(s, key)
    ensures Without(s, key) == s
  {
    if s != [] {
      assert s[0].key != key;
      assert forall i :: 0 <= i < |s[1..]| ==> s[1..][i] == s[i + 1];
      WithoutAbsent(s[1..], key);
      assert s == [s[0]] + s[1..];
    }
  }

  lemma HasIsMembership(s: seq<Entry>, key: string)
    ensures Has(s, key) <==> exists e :: e in s && e.key == key
  {
    if e :| e in s && e.key == key {
      var i :| 0 <= i < |s| && s[i] == e;
    }
  }

  lemma EvictionIsRemoval(s: seq<Entry>)
    requires Distinct(s) && s != []
    ensures DropLast(s) == Without(s, s[|s| - 1].key)
  {
    WithoutCutsOne(s, |s| - 1);
  }

  /** Consing a key that is not there keeps keys distinct. */
  lemma ConsKeepsDistinct(e: Entry, s: seq<Entry>)
    requires Distinct(s) && !Has(s, e.key)
    ensures Distinct([e] + s)
  {
  }

  lemma GetKeepsShape(s: seq<Entry>, capacity: nat, ttl: int, now: int, domain: string, slug: string)
    requires WellFormed(s, capacity)
    ensures WellFormed(Get(s, ttl, now, domain, slug).list, capacity)
  {
    if HitKey(s, domain, slug).Some? {
      var k := HitKey(s, domain, slug).value;
      WithoutKeepsDistinct(s, k);
      ConsKeepsDistinct(Find(s, k), Without(s, k));
    }
  }

  lemma SetKeepsShape(s: seq<Entry>, capacity: nat, now: int, domain: string, slug: string, link: Link)
    requires WellFormed(s, capacity) && capacity > 0
    ensures WellFormed(Set(s, capacity, now, domain, slug, link), capacity)
  {
    var key := FormatCacheKey(domain, slug);
    WithoutKeepsDistinct(s, key);
    var rest := Set(s, capacity, now, domain, slug, link)[1..];
    assert !Has(rest, key);
    ConsKeepsDistinct(Entry(key, link, now), rest);
  }

  lemma DeleteKeepsShape(s: seq<Entry>, capacity: nat, domain: string, slug: string)
    requires WellFormed(s, capacity)
    ensures WellFormed(Delete(s, domain, slug), capacity)
  {
    WithoutKeepsDistinct(s, FormatCacheKey(domain, slug));
    WithoutKeepsDistinct(Without(s, FormatCacheKey(domain, slug)), slug);
  }

  // ---------- what an operation leaves alone ----------

  lemma {:induction false} WithoutTwice(s: seq<Entry>, key: string)
    ensures Without(Without(s, key), key) == Without(s, key)
  {
    if s != [] {
      WithoutTwice(s[1..], key);
      if s[0].key != key {
        assert ([s[0]] + Without(s[1..], key))[1..] == Without(s[1..], key);
      }
    }
  }

  lemma WithoutCons(e: Entry, s: seq<Entry>)
    ensures Without([e] + s, e.key) == Without(s, e.key)
  {
    assert ([e] + s)[1..] == s;
  }

  /** A lookup moves its entry to the front or drops it; everything else keeps its order. */
  lemma GetLeavesOthersInOrder(s: seq<Entry>, ttl: int, now: int, domain: string, slug: string)
    requires HitKey(s, domain, slug).Some?
    ensures var k := HitKey(s, domain, slug).value;
            var r := Get(s, ttl, now, domain, slug);
            && Without(r.list, k) == Without(s, k)
            && (r.hit.Some? <==> Has(r.list, k))
            && (r.hit.Some? ==> r.list[0].key == k && r.list[0] in s && r.hit == Some(r.list[0].link))
  {
    var k := HitKey(s, domain, slug).value;
    WithoutTwice(s, k);
    WithoutCons(Find(s, k), Without(s, k));
    WithoutMembers(s, k);
    HasIsMembership(Without(s, k), k);
  }

  /** A store puts its entry in front and costs at most the least recent of the others. */
  lemma SetLeavesOthersInOrder(s: seq<Entry>, capacity: nat, now: int, domain: string, slug: string, link: Link)
    requires Distinct(s)
    ensures var k := FormatCacheKey(domain, slug);
            var r := Set(s, capacity, now, domain, slug, link);
            && r[0] == Entry(k, link, now)
            && (Has(s, k) || |s| < capacity ==> Without(r, k) == Without(s, k))
            && (!Has(s, k) && |s| >= capacity ==> Without(r, k) == DropLast(s))
  {
    var k := FormatCacheKey(domain, slug);
    var r := Set(s, capacity, now, domain, slug, link);
    WithoutCons(Entry(k, link, now), r[1..]);
    assert r == [Entry(k, link, now)] + r[1..];
    if Has(s, k) {
      WithoutTwice(s, k);
    } else if |s| >= capacity {
      WithoutAbsent(DropLast(s), k);
    }
  }

  /** Deleting is exact: the two keys go, every other entry stays, and a later lookup of either misses. */
  lemma DeleteRemovesBothKeys(s: seq<Entry>, ttl: int, now: int, domain: string, slug: string)
    ensures forall e :: e in Delete(s, domain, slug) <==>
                        e in s && e.key != FormatCacheKey(domain, slug) && e.key != slug
    ensures Get(Delete(s, domain, slug), ttl, now, domain, slug).hit == None
  {
    WithoutMembers(s, FormatCacheKey(domain, slug));
    WithoutMembers(Without(s, FormatCacheKey(domain, slug)), slug);
    HasIsMembership(Delete(s, domain, slug), FormatCacheKey(domain, slug));
    HasIsMembership(Delete(s, domain, slug), slug);
  }

  /** What was just stored is found again until its time to live runs out, and not after. */
  lemma StoredThenFound(s: seq<Entry>, capacity: nat, ttl: int, t: int, now: int, domain: string, slug: string,
                        link: Link)
    ensures Get(Set(s, capacity, t, domain, slug, link), ttl, now, domain, slug).hit ==
            if now - t <= ttl then Some(link) else None
  {
    var r := Set(s, capacity, t, domain, slug, link);
    assert r[0].key == FormatCacheKey(domain, slug);
    assert Has(r, FormatCacheKey(domain, slug));
  }
}
