/** The link cache as the program keeps it: a hash map into a doubly linked list. */
module LinkCache {
  import opened Wrappers
  import opened Links
  import opened RecencyList
  import M = CacheModel

  /** The map leads every key of the list to its element and knows no other key. */
  ghost predicate Indexed(r: seq<Element>, s: seq<M.Entry>, items: map<string, Element>) {
    && |r| == |s| + 1
    && (forall i, j :: 0 <= i < j < |r| ==> r[i] != r[j])
    && (forall i :: 0 <= i < |s| ==> s[i].key in items && items[s[i].key] == r[i + 1])
    && (forall k :: k in items ==> M.Has(s, k))
  }

  /** Hence map and list hold the same keys, each once. */
  lemma IndexedIsDistinct(r: seq<Element>, s: seq<M.Entry>, items: map<string, Element>)
    requires Indexed(r, s, items)
    ensures M.Distinct(s)
    ensures forall k :: k in items <==> M.Has(s, k)
  {
  }

  /** Where the element the map gives for a key stands in the list. */
  lemma PositionOf(r: seq<Element>, s: seq<M.Entry>, items: map<string, Element>, key: string) returns (k: nat)
    requires Indexed(r, s, items) && key in items
    ensures 1 <= k < |r| && r[k] == items[key] && s[k - 1].key == key
    ensures M.Find(s, key) == s[k - 1]
    ensures M.Without(s, key) == Cut(s, k - 1)
  {
    IndexedIsDistinct(r, s, items);
    var i :| 0 <= i < |s| && s[i].key == key;
    k := i + 1;
    M.WithoutCutsOne(s, i);
  }

  lemma CutKeepsKeys(s: seq<M.Entry>, k: nat, key: string)
    requires k < |s| && M.Has(s, key) && key != s[k].key
    ensures M.Has(Cut(s, k), key)
  {
    var i :| 0 <= i < |s| && s[i].key == key;
    assert Cut(s, k)[if i < k then i else i - 1].key == key;
  }

  lemma CutKeepsItems(r: seq<Element>, s: seq<M.Entry>, items: map<string, Element>, k: nat, i: nat)
    requires Indexed(r, s, items) && 1 <= k < |r| && i < |s| - 1
    ensures var e := Cut(s, k - 1)[i];
            e.key in items && e.key != s[k - 1].key && items[e.key] == Cut(r, k)[i + 1]
  {
    var j := if i < k - 1 then i else i + 1;
    assert Cut(s, k - 1)[i] == s[j] && items[s[j].key] == r[j + 1] && items[s[k - 1].key] == r[k];
  }

  lemma CutKeepsIndex(r: seq<Element>, s: seq<M.Entry>, items: map<string, Element>, k: nat)
    requires Indexed(r, s, items) && 1 <= k < |r|
    ensures Indexed(Cut(r, k), Cut(s, k - 1), items - {s[k - 1].key})
  {
    var t, q, m := Cut(s, k - 1), Cut(r, k), items - {s[k - 1].key};
    forall i | 0 <= i < |t| ensures t[i].key in m && m[t[i].key] == q[i + 1] {
      CutKeepsItems(r, s, items, k, i);
    }
    forall key | key in m ensures M.Has(t, key) {
      CutKeepsKeys(s, k - 1, key);
    }
  }

  lemma FrontKeepsIndex(r: seq<Element>, s: seq<M.Entry>, items: map<string, Element>, e: Element, v: M.Entry)
    requires Indexed(r, s, items) && v.key !in items && e !in r
    ensures Indexed(Fronted(r, e), [v] + s, items[v.key := e])
  {
    var t := [v] + s;
    assert t[0].key == v.key;
    forall key | key in items ensures M.Has(t, key) {
      var i :| 0 <= i < |s| && s[i].key == key;
      assert t[i + 1].key == key;
    }
  }

  lemma MoveKeepsIndex(r: seq<Element>, s: seq<M.Entry>, items: map<string, Element>, k: nat, v: M.Entry)
    requires Indexed(r, s, items) && 1 <= k < |r| && v.key == s[k - 1].key
    ensures Indexed(Fronted(Cut(r, k), r[k]), [v] + Cut(s, k - 1), items)
  {
    CutKeepsIndex(r, s, items, k);
    FrontKeepsIndex(Cut(r, k), Cut(s, k - 1), items - {v.key}, r[k], v);
    assert (items - {v.key})[v.key := items[v.key]] == items;
  }

  lemma PositionToMove(r: seq<Element>, s: seq<M.Entry>, items: map<string, Element>, v: M.Entry) returns (k: nat)
    requires Indexed(r, s, items) && v.key in items
    ensures 1 <= k < |r| && r[k] == items[v.key]
    ensures M.Without(s, v.key) == Cut(s, k - 1)
    ensures var q := Fronted(Cut(r, k), r[k]); Indexed(q, [v] + Cut(s, k - 1), items) && Elements(q) == Elements(r)
  {
    k := PositionOf(r, s, items, v.key);
    MoveKeepsIndex(r, s, items, k, v);
    MovedMembers(r, k);
  }

  lemma FrontValueKeepsIndex(r: seq<Element>, s: seq<M.Entry>, items: map<string, Element>, v: M.Entry)
    requires Indexed(r, s, items) && s != [] && v.key == s[0].key
    ensures Indexed(r, [v] + s[1..], items)
  {
    var t := [v] + s[1..];
    assert forall i :: 0 <= i < |s| ==> t[i].key == s[i].key;
    forall key | key in items ensures M.Has(t, key) {
      var i :| 0 <= i < |s| && s[i].key == key;
      assert t[i].key == key;
    }
  }

  const DEFAULT_CAPACITY := 10000
  const MINUTE := 60 * 1_000_000_000 // in nanoseconds

  class LinkCache {
    const capacity: nat
    const ttl: int
    var items: map<string, Element>
    const evictList: List

    ghost predicate Valid()
      reads this, evictList, evictList.ring
    {
      && capacity > 0
      && evictList.Valid()
      && Indexed(evictList.ring, evictList.contents, items)
      && evictList.len <= capacity
    }

    /** The cache as a sequence of entries, most recent first. */
    ghost function Contents(): seq<M.Entry>
      reads this, evictList
    {
      evictList.contents
    }

    ghost function Repr(): set<object>
      reads this, evictList
    {
      {this, evictList} + Elements(evictList.ring)
    }

    constructor (capacity: int, ttl: int)
      ensures Valid() && fresh(Repr()) && Contents() == []
      ensures this.capacity == if capacity <= 0 then DEFAULT_CAPACITY else capacity
      ensures this.ttl == if ttl <= 0 then 15 * MINUTE else ttl
    {
      this.capacity := if capacity <= 0 then DEFAULT_CAPACITY else capacity;
      this.ttl := if ttl <= 0 then 15 * MINUTE else ttl;
      this.items := map[];
      this.evictList := new List();
    }

    method RemoveElement(e: Element)
      requires Valid() && e.value.key in items && items[e.value.key] == e
      modifies Repr()
      ensures Valid() && Repr() <= old(Repr())
      ensures Contents() == M.Without(old(Contents()), old(e.value.key))
    {
      var key := e.value.key;
      ghost var k := PositionOf(evictList.ring, evictList.contents, items, key);
      CutKeepsIndex(evictList.ring, evictList.contents, items, k);
      CutMembers(evictList.ring, k);
      evictList.Remove(e, k);
      items := items - {key};
    }

    method EvictOldest()
      requires Valid()
      modifies Repr()
      ensures Valid() && Repr() <= old(Repr())
      ensures Contents() == M.DropLast(old(Contents()))
    {
      var elem := evictList.root.prev;
      assert evictList.ring[0].prev == evictList.ring[|evictList.ring| - 1];
      if elem != evictList.root {
        ghost var n := |evictList.contents|;
        assert evictList.contents[n - 1] == elem.value;
        IndexedIsDistinct(evictList.ring, evictList.contents, items);
        M.EvictionIsRemoval(evictList.contents);
        RemoveElement(elem);
      }
    }

    /** Looks a link up, falling back to the root domain's entry; a hit moves to the front, a stale entry goes. */
    method Get(domain: string, slug: string, now: int) returns (hit: Option<Link>)
      requires Valid()
      modifies Repr()
      ensures Valid() && Repr() <= old(Repr())
      ensures M.Outcome(Contents(), hit) == M.Get(old(Contents()), ttl, now, domain, slug)
    {
      IndexedIsDistinct(evictList.ring, evictList.contents, items);
      var key := FormatCacheKey(domain, slug);
      if key !in items {
        if domain == "" || slug !in items {
          return None;
        }
        key := slug;
      }
      var elem := items[key];
      ghost var k := PositionOf(evictList.ring, evictList.contents, items, key);
      if now - elem.value.cachedAt > ttl {
        RemoveElement(elem);
        return None;
      }
      hit := Some(elem.value.link);
      MoveToFront(elem);
    }

    method MoveToFront(e: Element)
      requires Valid() && e.value.key in items && items[e.value.key] == e
      modifies Repr()
      ensures Valid() && Repr() <= old(Repr()) && e.value == old(e.value) && items == old(items)
      ensures |evictList.ring| > 1 && evictList.ring[1] == e
      ensures Contents() == [e.value] + M.Without(old(Contents()), e.value.key)
    {
      ghost var k := PositionToMove(evictList.ring, evictList.contents, items, e.value);
      ghost var v, r, s := e.value, evictList.ring, evictList.contents;
      evictList.MoveToFront(e, k);
      assert evictList.ring == Fronted(Cut(r, k), e);
      assert evictList.contents == [v] + Cut(s, k - 1);
      assert Indexed(evictList.ring, evictList.contents, items);
    }

    /** Stores a link under a domain and slug; a missing link is ignored. */
    method Set(domain: string, slug: string, link: Option<Link>, now: int)
      requires Valid()
      modifies Repr()
      ensures Valid() && fresh(Repr() - old(Repr()))
      ensures Contents() == if link.None? then old(Contents())
                            else M.Set(old(Contents()), capacity, now, domain, slug, link.value)
    {
      if link.None? {
        return;
      }
      IndexedIsDistinct(evictList.ring, evictList.contents, items);
      var key := FormatCacheKey(domain, slug);
      if key in items {
        Overwrite(items[key], link.value, now);
        return;
      }
      if evictList.len >= capacity {
        EvictOldest();
      }
      assert key !in items;
      Insert(M.Entry(key, link.value, now));
    }

    /** Moves a known element to the front and overwrites its entry in place. */
    method Overwrite(e: Element, link: Link, now: int)
      requires Valid() && e.value.key in items && items[e.value.key] == e
      modifies Repr()
      ensures Valid() && Repr() <= old(Repr())
      ensures Contents() == [M.Entry(old(e.value.key), link, now)] + M.Without(old(Contents()), old(e.value.key))
    {
      MoveToFront(e);
      FrontValueKeepsIndex(evictList.ring, evictList.contents, items, e.value.(link := link, cachedAt := now));
      evictList.Overwrite(e, e.value.(link := link, cachedAt := now));
    }

    method Insert(v: M.Entry)
      requires Valid() && v.key !in items && evictList.len < capacity
      modifies Repr()
      ensures Valid() && fresh(Repr() - old(Repr()))
      ensures Contents() == [v] + old(Contents())
    {
      ghost var r := evictList.ring;
      var elem := evictList.PushFront(v);
      FrontKeepsIndex(r, old(Contents()), items, elem, v);
      FrontedMembers(r, elem);
      items := items[v.key := elem];
    }

    /** Drops the entry of a domain and slug, and the bare slug's entry too. */
    method Delete(domain: string, slug: string)
      requires Valid()
      modifies Repr()
      ensures Valid() && Repr() <= old(Repr())
      ensures Contents() == M.Delete(old(Contents()), domain, slug)
    {
      RemoveKey(FormatCacheKey(domain, slug));
      RemoveKey(slug);
    }

    method RemoveKey(key: string)
      requires Valid()
      modifies Repr()
      ensures Valid() && Repr() <= old(Repr())
      ensures Contents() == M.Without(old(Contents()), key)
    {
      IndexedIsDistinct(evictList.ring, evictList.contents, items);
      if key in items {
        ghost var k := PositionOf(evictList.ring, evictList.contents, items, key);
        RemoveElement(items[key]);
      } else {
        M.WithoutAbsent(Contents(), key);
      }
    }

    method Clear()
      requires Valid()
      modifies Repr()
      ensures Valid() && Repr() <= old(Repr()) && Contents() == []
    {
      items := map[];
      evictList.Init();
    }

    method Len() returns (n: nat)
      requires Valid()
      ensures n == |Contents()| == |items.Keys| <= capacity
    {
      n := evictList.len;
      OneKeyPerEntry(evictList.ring, evictList.contents, items);
    }
  }

  lemma {:induction false} OneKeyPerEntry(r: seq<Element>, s: seq<M.Entry>, items: map<string, Element>)
    requires Indexed(r, s, items)
    ensures |items.Keys| == |s|
    decreases |s|
  {
    if s == [] {
      assert items.Keys == {} by {
        assert forall k :: k in items ==> M.Has(s, k);
      }
    } else {
      CutKeepsIndex(r, s, items, 1);
      OneKeyPerEntry(Cut(r, 1), Cut(s, 0), items - {s[0].key});
      assert items.Keys == (items - {s[0].key}).Keys + {s[0].key};
    }
  }
}
