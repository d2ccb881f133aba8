/** Byte strings, their order, and sorting by it. */
module Texts {
  type Byte = c: char | c as int < 256 witness 'a'

  type Text = seq<Byte>

  datatype Pair = Pair(key: Text, value: Text)

  /** Lexicographic order, byte by byte. */
  predicate AtMost(a: string, b: string) {
    a == [] || (b != [] && (a[0] < b[0] || (a[0] == b[0] && AtMost(a[1..], b[1..]))))
  }

  /** One text begins the other, or has the smaller byte where they first differ. */
  lemma {:induction false} AtMostIsByteOrder(a: string, b: string)
    ensures AtMost(a, b) <==>
              a <= b || exists i :: 0 <= i < |a| && i < |b| && a[..i] == b[..i] && a[i] < b[i]
  {
    if a != [] && b != [] {
      AtMostIsByteOrder(a[1..], b[1..]);
      if a[0] == b[0] {
        assert a <= b <==> a[1..] <= b[1..] by {
          assert a == [a[0]] + a[1..] && b == [b[0]] + b[1..];
        }
        if i :| 0 <= i < |a| && i < |b| && a[..i] == b[..i] && a[i] < b[i] {
          assert a[1..][..i - 1] == a[..i][1..] && b[1..][..i - 1] == b[..i][1..];
          assert a[1..][i - 1] < b[1..][i - 1];
        }
        if i :| 0 <= i < |a[1..]| && i < |b[1..]| && a[1..][..i] == b[1..][..i] && a[1..][i] < b[1..][i] {
          assert a[..i + 1] == [a[0]] + a[1..][..i] && b[..i + 1] == [b[0]] + b[1..][..i];
          assert a[i + 1] < b[i + 1];
        }
      } else if a[0] < b[0] {
        assert a[..0] == b[..0];
      } else {
        assert forall i :: 0 < i < |a| && i < |b| ==> a[..i][0] == a[0] && b[..i][0] == b[0];
      }
    }
  }

  lemma {:induction false} Total(a: string, b: string)
    ensures AtMost(a, b) || AtMost(b, a)
  {
    if a != [] && b != [] && a[0] == b[0] {
      Total(a[1..], b[1..]);
    }
  }

  lemma {:induction false} Antisymmetric(a: string, b: string)
    requires AtMost(a, b) && AtMost(b, a)
    ensures a == b
  {
    if a != [] && b != [] {
      Antisymmetric(a[1..], b[1..]);
      assert a == [a[0]] + a[1..] && b == [b[0]] + b[1..];
    }
  }

  lemma {:induction false} Transitive(a: string, b: string, c: string)
    requires AtMost(a, b) && AtMost(b, c)
    ensures AtMost(a, c)
  {
    if a != [] && a[0] == b[0] == c[0] {
      Transitive(a[1..], b[1..], c[1..]);
    }
  }

  // ---------- sorted keys ----------

  predicate Least(k: Text, s: set<Text>) {
    k in s && forall j :: j in s ==> AtMost(k, j)
  }

  lemma {:induction false} LeastExists(s: set<Text>) returns (k: Text)
    requires s != {}
    ensures Least(k, s)
    decreases |s|
  {
    var x :| x in s;
    var rest := s - {x};
    k := x;
    Total(x, x);
    if rest == {} {
      assert forall j :: j in s ==> j == x || j in rest;
    } else {
      var y := LeastExists(rest);
      Total(x, y);
      if AtMost(y, x) {
        k := y;
        assert forall j :: j in s ==> j == x || j in rest;
      } else {
        forall j | j in s ensures AtMost(x, j) {
          if j != x {
            assert j in rest;
            Transitive(x, y, j);
          }
        }
      }
    }
  }

  lemma LeastIsUnique(s: set<Text>)
    ensures forall j: Text, k: Text :: Least(j, s) && Least(k, s) ==> j == k
  {
    forall j: Text, k: Text | Least(j, s) && Least(k, s) ensures j == k {
      Antisymmetric(j, k);
    }
  }

  function SortedKeys(s: set<Text>): seq<Text>
    decreases |s|
  {
    if s == {} then []
    else
      ghost var _ := LeastOf(s);
      LeastIsUnique(s);
      var k :| Least(k, s);
      [k] + SortedKeys(s - {k})
  }

  ghost function LeastOf(s: set<Text>): (k: Text)
    requires s != {}
    ensures Least(k, s)
  {
    assert exists k :: Least(k, s) by {
      var k := LeastExists(s);
    }
    var k :| Least(k, s);
    k
  }

  predicate Ascending(keys: seq<Text>) {
    forall i, j :: 0 <= i < j < |keys| ==> AtMost(keys[i], keys[j]) && keys[i] != keys[j]
  }

  lemma {:induction false} SortedKeysAscend(s: set<Text>)
    ensures Ascending(SortedKeys(s)) && forall k :: k in SortedKeys(s) <==> k in s
    decreases |s|
  {
    if s != {} {
      LeastIsUnique(s);
      var _ := LeastOf(s);
      var k :| Least(k, s);
      var keys := SortedKeys(s);
      assert keys[0] == k && keys[1..] == SortedKeys(s - {k});
      SortedKeysAscend(s - {k});
      forall i, j | 0 <= i < j < |keys| ensures AtMost(keys[i], keys[j]) && keys[i] != keys[j] {
        assert keys[j] == keys[1..][j - 1] && keys[j] in s - {k};
        if i > 0 {
          assert keys[i] == keys[1..][i - 1];
        }
      }
      forall x ensures x in keys <==> x in s {
        assert x in keys <==> x == k || x in keys[1..];
      }
    }
  }

  /** A set has one ascending list. */
  lemma {:induction false} AscendingIsUnique(p: seq<Text>, q: seq<Text>)
    requires Ascending(p) && Ascending(q) && forall k :: k in p <==> k in q
    ensures p == q
  {
    assert p == [] <==> q == [] by {
      assert p != [] ==> p[0] in p;
      assert q != [] ==> q[0] in q;
    }
    if p != [] {
      assert AtMost(p[0], q[0]) by {
        HeadIsLeast(p, q[0]);
      }
      assert AtMost(q[0], p[0]) by {
        HeadIsLeast(q, p[0]);
      }
      Antisymmetric(p[0], q[0]);
      TailMembers(p);
      TailMembers(q);
      AscendingIsUnique(p[1..], q[1..]);
      assert p == [p[0]] + p[1..] && q == [q[0]] + q[1..];
    }
  }

  lemma HeadIsLeast(p: seq<Text>, k: Text)
    requires Ascending(p) && k in p
    ensures AtMost(p[0], k)
  {
    Total(k, k);
  }

  lemma TailMembers(p: seq<Text>)
    requires Ascending(p) && p != []
    ensures forall k :: k in p[1..] <==> k in p && k != p[0]
  {
    forall k ensures k in p[1..] <==> k in p && k != p[0] {
      assert k in p <==> k == p[0] || k in p[1..];
    }
  }

  function Insert(x: Text, s: seq<Text>): seq<Text> {
    if s == [] || AtMost(x, s[0]) then [x] + s else [s[0]] + Insert(x, s[1..])
  }

  /** What sorting a list of strings gives. */
  function Sort(s: seq<Text>): seq<Text> {
    if s == [] then [] else Insert(s[0], Sort(s[1..]))
  }

  lemma {:induction false} InsertMembers(x: Text, s: seq<Text>)
    ensures forall k :: k in Insert(x, s) <==> k == x || k in s
  {
    if s != [] && !AtMost(x, s[0]) {
      InsertMembers(x, s[1..]);
      assert s == [s[0]] + s[1..];
    }
  }

  lemma {:induction false} InsertAscends(x: Text, s: seq<Text>)
    requires Ascending(s) && x !in s
    ensures Ascending(Insert(x, s))
  {
    if s == [] {
    } else if AtMost(x, s[0]) {
      forall j | 0 <= j < |s| ensures AtMost(x, s[j]) {
        HeadIsLeast(s, s[j]);
        Transitive(x, s[0], s[j]);
      }
    } else {
      Total(x, s[0]);
      TailMembers(s);
      InsertAscends(x, s[1..]);
      InsertMembers(x, s[1..]);
      forall k | k in Insert(x, s[1..]) ensures AtMost(s[0], k) && s[0] != k {
        if k != x {
          HeadIsLeast(s, k);
        }
      }
    }
  }

  /** Sorting a list without repetitions gives the ascending list of its elements. */
  lemma {:induction false} SortIsSortedKeys(s: seq<Text>)
    requires forall i, j :: 0 <= i < j < |s| ==> s[i] != s[j]
    ensures Sort(s) == SortedKeys(set k | k in s)
  {
    SortAscends(s);
    SortedKeysAscend(set k | k in s);
    AscendingIsUnique(Sort(s), SortedKeys(set k | k in s));
  }

  lemma {:induction false} SortAscends(s: seq<Text>)
    requires forall i, j :: 0 <= i < j < |s| ==> s[i] != s[j]
    ensures Ascending(Sort(s)) && forall k :: k in Sort(s) <==> k in s
  {
    if s != [] {
      SortAscends(s[1..]);
      InsertMembers(s[0], Sort(s[1..]));
      InsertAscends(s[0], Sort(s[1..]));
      assert s == [s[0]] + s[1..];
    }
  }

  // ---------- pairs sorted by key ----------

  predicate ByKey(ps: seq<Pair>) {
    forall i, j :: 0 <= i < j < |ps| ==> AtMost(ps[i].key, ps[j].key)
  }

  /** The values of one key, in order. */
  function Values(ps: seq<Pair>, key: Text): seq<Text> {
    if ps == [] then [] else (if ps[0].key == key then [ps[0].value] else []) + Values(ps[1..], key)
  }

  lemma {:induction false} ValuesOfConcat(ps: seq<Pair>, qs: seq<Pair>, key: Text)
    ensures Values(ps + qs, key) == Values(ps, key) + Values(qs, key)
  {
    if ps == [] {
      assert ps + qs == qs;
    } else {
      ValuesOfConcat(ps[1..], qs, key);
      assert (ps + qs)[1..] == ps[1..] + qs;
    }
  }

  lemma {:induction false} ValuesTellKeys(ps: seq<Pair>, key: Text)
    ensures Values(ps, key) != [] <==> exists i :: 0 <= i < |ps| && ps[i].key == key
  {
    if ps != [] {
      ValuesTellKeys(ps[1..], key);
      if i :| 0 <= i < |ps| && ps[i].key == key {
        assert i > 0 ==> ps[1..][i - 1].key == key;
      }
    }
  }

  lemma FirstKeyIsLeast(ps: seq<Pair>, key: Text)
    requires ByKey(ps) && Values(ps, key) != []
    ensures ps != [] && AtMost(ps[0].key, key)
  {
    ValuesTellKeys(ps, key);
    Total(key, key);
  }

  /** A list sorted by key is determined by each key's values in order. */
  lemma {:induction false} ByKeyIsUnique(ps: seq<Pair>, qs: seq<Pair>)
    requires ByKey(ps) && ByKey(qs) && forall key :: Values(ps, key) == Values(qs, key)
    ensures ps == qs
  {
    assert ps == [] <==> qs == [] by {
      assert ps != [] ==> Values(ps, ps[0].key) != [];
      assert qs != [] ==> Values(qs, qs[0].key) != [];
    }
    if ps != [] {
      var p, q := ps[0].key, qs[0].key;
      assert Values(ps, p) == Values(qs, p) && Values(ps, q) == Values(qs, q);
      FirstKeyIsLeast(ps, q);
      FirstKeyIsLeast(qs, p);
      Antisymmetric(p, q);
      forall key ensures Values(ps[1..], key) == Values(qs[1..], key) {
        SameRests(ps, qs, key);
      }
      ByKeyIsUnique(ps[1..], qs[1..]);
      assert ps[0].value == Values(ps, p)[0] == Values(qs, p)[0] == qs[0].value;
      assert ps == [ps[0]] + ps[1..] && qs == [qs[0]] + qs[1..];
    }
  }

  lemma SameRests(ps: seq<Pair>, qs: seq<Pair>, key: Text)
    requires ps != [] && qs != [] && ps[0].key == qs[0].key && Values(ps, key) == Values(qs, key)
    ensures Values(ps[1..], key) == Values(qs[1..], key)
  {
    if ps[0].key == key {
      assert Values(ps, key)[1..] == Values(ps[1..], key);
      assert Values(qs, key)[1..] == Values(qs[1..], key);
    } else {
      assert Values(ps, key) == Values(ps[1..], key);
      assert Values(qs, key) == Values(qs[1..], key);
    }
  }

  function InsertPair(p: Pair, ps: seq<Pair>): seq<Pair> {
    if ps == [] || AtMost(p.key, ps[0].key) then [p] + ps else [ps[0]] + InsertPair(p, ps[1..])
  }

  /** What a stable sort by key gives. */
  function StableSort(ps: seq<Pair>): seq<Pair> {
    if ps == [] then [] else InsertPair(ps[0], StableSort(ps[1..]))
  }

  lemma {:induction false} InsertPairKeepsValues(p: Pair, ps: seq<Pair>, key: Text)
    ensures Values(InsertPair(p, ps), key) == Values([p] + ps, key)
  {
    if ps == [] || AtMost(p.key, ps[0].key) {
    } else {
      InsertPairKeepsValues(p, ps[1..], key);
      Total(p.key, p.key);
      var r := InsertPair(p, ps);
      assert r[0] == ps[0] && r[1..] == InsertPair(p, ps[1..]);
      assert ([p] + ps[1..])[1..] == ps[1..] && ([p] + ps)[1..] == ps;
    }
  }

  lemma {:induction false} InsertPairSorts(p: Pair, ps: seq<Pair>)
    requires ByKey(ps)
    ensures ByKey(InsertPair(p, ps))
    ensures forall q :: q in InsertPair(p, ps) ==> q == p || q in ps
  {
    if ps == [] {
    } else if AtMost(p.key, ps[0].key) {
      forall j | 0 <= j < |ps| ensures AtMost(p.key, ps[j].key) {
        if j > 0 {
          Transitive(p.key, ps[0].key, ps[j].key);
        }
      }
    } else {
      Total(p.key, ps[0].key);
      InsertPairSorts(p, ps[1..]);
      forall q | q in InsertPair(p, ps[1..]) ensures AtMost(ps[0].key, q.key) {
        if q != p {
          assert q in ps[1..];
        }
      }
    }
  }

  /** It is sorted, and no key's values change order. */
  lemma {:induction false} StableSortIsStable(ps: seq<Pair>)
    ensures ByKey(StableSort(ps)) && forall key :: Values(StableSort(ps), key) == Values(ps, key)
  {
    if ps != [] {
      StableSortIsStable(ps[1..]);
      InsertPairSorts(ps[0], StableSort(ps[1..]));
      forall key ensures Values(StableSort(ps), key) == Values(ps, key) {
        InsertPairKeepsValues(ps[0], StableSort(ps[1..]), key);
        assert ([ps[0]] + StableSort(ps[1..]))[1..] == StableSort(ps[1..]);
      }
    }
  }
}
