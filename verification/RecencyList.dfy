/** The doubly linked list behind the cache: a ring of elements closed by a sentinel. */
module RecencyList {
  import opened Links
  import M = CacheModel

  class Element {
    var prev: Element
    var next: Element
    var value: M.Entry

    /** A fresh element links to itself, as the sentinel of an empty list does. */
    constructor (value: M.Entry)
      ensures prev == this && next == this && this.value == value
    {
      this.value := value;
      this.prev := this;
      this.next := this;
    }
  }

  /** The elements, in this order, form one closed ring. */
  ghost predicate Ring(r: seq<Element>)
    reads r`next, r`prev
  {
    && |r| >= 1
    && (forall i, j :: 0 <= i < j < |r| ==> r[i] != r[j])
    && (forall i :: 0 <= i < |r| - 1 ==> r[i].next == r[i + 1])
    && (forall i :: 1 <= i < |r| ==> r[i].prev == r[i - 1])
    && r[|r| - 1].next == r[0]
    && r[0].prev == r[|r| - 1]
  }

  /** Behind the sentinel, the elements hold these entries. */
  ghost predicate Holds(r: seq<Element>, s: seq<M.Entry>)
    reads r`value
  {
    |r| == |s| + 1 && forall i :: 0 <= i < |s| ==> s[i] == r[i + 1].value
  }

  ghost function Cut<T>(s: seq<T>, k: nat): (r: seq<T>)
    requires k < |s|
    ensures |r| == |s| - 1
    ensures forall i :: 0 <= i < |r| ==> r[i] == if i < k then s[i] else s[i + 1]
  {
    s[..k] + s[k + 1..]
  }

  lemma CutMembers<T>(s: seq<T>, k: nat)
    requires k < |s|
    ensures forall x :: x in Cut(s, k) ==> x in s
    ensures forall x :: x in s ==> x == s[k] || x in Cut(s, k)
  {
    forall x | x in s && x != s[k] ensures x in Cut(s, k) {
      var i :| 0 <= i < |s| && s[i] == x;
      assert Cut(s, k)[if i < k then i else i - 1] == x;
    }
  }

  /** The ring with a loose element put right behind the sentinel. */
  ghost function Fronted(r: seq<Element>, e: Element): (q: seq<Element>)
    requires |r| > 0
    ensures |q| == |r| + 1 && q[0] == r[0] && q[1] == e
    ensures forall i :: 2 <= i < |q| ==> q[i] == r[i - 1]
  {
    [r[0], e] + r[1..]
  }

  lemma FrontedMembers(r: seq<Element>, e: Element)
    requires |r| > 0
    ensures forall x :: x in Fronted(r, e) <==> x == e || x in r
  {
    assert r == [r[0]] + r[1..];
  }

  ghost function Elements(r: seq<Element>): set<object> {
    set e | e in r
  }

  /** Moving an element to the front keeps the same elements. */
  lemma MovedMembers(r: seq<Element>, k: nat)
    requires 1 <= k < |r|
    ensures Elements(Fronted(Cut(r, k), r[k])) == Elements(r)
  {
    CutMembers(r, k);
    FrontedMembers(Cut(r, k), r[k]);
  }

  /** Takes r[k] out of the ring. */
  method Unlink(ghost r: seq<Element>, ghost k: nat, e: Element)
    requires Ring(r) && 1 <= k < |r| && e == r[k]
    modifies r`next, r`prev
    ensures Ring(Cut(r, k))
  {
    ghost var after := if k + 1 < |r| then r[k + 1] else r[0];
    assert e.prev == r[k - 1] && e.next == after;
    assert e.prev in r && e.next in r;
    e.prev.next := e.next;
    e.next.prev := e.prev;
    ghost var q := Cut(r, k);
    assert forall i :: 0 <= i < |q| - 1 ==> q[i].next == q[i + 1];
    assert forall i :: 1 <= i < |q| ==> q[i].prev == q[i - 1];
  }

  /** Puts a loose element right behind the sentinel. */
  method LinkFront(ghost r: seq<Element>, root: Element, e: Element)
    requires Ring(r) && root == r[0] && e !in r
    modifies r`next, r`prev, e`next, e`prev
    ensures Ring(Fronted(r, e))
  {
    ghost var first := if |r| > 1 then r[1] else r[0];
    assert root.next == first;
    assert root.next in r;
    e.prev := root;
    e.next := root.next;
    e.prev.next := e;
    e.next.prev := e;
    ghost var q := Fronted(r, e);
    assert forall i :: 0 <= i < |q| - 1 ==> q[i].next == q[i + 1];
    assert forall i :: 1 <= i < |q| ==> q[i].prev == q[i - 1];
  }

  method Move(ghost r: seq<Element>, ghost k: nat, root: Element, e: Element)
    requires Ring(r) && 1 <= k < |r| && e == r[k] && root == r[0]
    modifies r`next, r`prev
    ensures Ring(Fronted(Cut(r, k), e))
  {
    CutMembers(r, k);
    Unlink(r, k, e);
    LinkFront(Cut(r, k), root, e);
  }

  class List {
    const root: Element // root.next is the front, root.prev the back
    var len: nat
    ghost var ring: seq<Element> // the sentinel, then the elements from front to back
    ghost var contents: seq<M.Entry> // what the elements hold

    ghost predicate Valid()
      reads this, ring
    {
      Ring(ring) && ring[0] == root && len == |contents| && Holds(ring, contents)
    }

    constructor ()
      ensures Valid() && fresh(root) && ring == [root] && contents == []
    {
      var sentinel := new Element(M.Entry("", BLANK, 0));
      root := sentinel;
      len := 0;
      ring := [sentinel];
      contents := [];
    }

    method Init()
      requires Valid()
      modifies this, root`next, root`prev
      ensures Valid() && ring == [root] && contents == []
    {
      ring := [root];
      contents := [];
      len := 0;
      root.next := root;
      root.prev := root;
    }

    method Remove(e: Element, ghost k: nat)
      requires Valid() && 1 <= k < |ring| && ring[k] == e
      modifies this, ring`next, ring`prev
      ensures Valid() && ring == Cut(old(ring), k) && contents == Cut(old(contents), k - 1)
    {
      ghost var r := ring;
      len := len - 1;
      ring := Cut(ring, k);
      contents := Cut(contents, k - 1);
      Unlink(r, k, e);
    }

    method MoveToFront(e: Element, ghost k: nat)
      requires Valid() && 1 <= k < |ring| && ring[k] == e
      modifies this, ring`next, ring`prev
      ensures Valid() && ring == Fronted(Cut(old(ring), k), e)
      ensures contents == [e.value] + Cut(old(contents), k - 1)
    {
      if root.next == e {
        assert ring[0].next == ring[1];
        assert contents == [e.value] + Cut(contents, 0);
        assert ring == Fronted(Cut(ring, 1), e);
      } else {
        ghost var r := ring;
        ring := Fronted(Cut(ring, k), e);
        contents := [e.value] + Cut(contents, k - 1);
        assert Holds(ring, contents);
        Move(r, k, root, e);
      }
    }

    /** Overwrites what the front element holds. */
    method Overwrite(e: Element, v: M.Entry)
      requires Valid() && |ring| > 1 && ring[1] == e
      modifies this`contents, e`value
      ensures Valid() && contents == [v] + old(contents)[1..]
    {
      e.value := v;
      contents := [v] + contents[1..];
    }

    method PushFront(v: M.Entry) returns (e: Element)
      requires Valid()
      modifies this, ring`next, ring`prev
      ensures Valid() && fresh(e) && ring == Fronted(old(ring), e) && contents == [v] + old(contents)
    {
      e := new Element(v);
      ghost var r := ring;
      len := len + 1;
      ring := Fronted(ring, e);
      contents := [v] + contents;
      LinkFront(r, root, e);
    }
  }
}
