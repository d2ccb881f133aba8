/** Which cache keys a lookup tries, and which keys a link may come to sit under. Request slugs are not
    validated: one that spells another link's key makes a click file that link under a further key. */
module LinkKeys {
  import opened Links

  /** The domain and slug of a link, or of a lookup. */
  type Address = (string, string)

  /** The addresses links are stored at. */
  ghost predicate Stored(a: Address) {
    Normal(a.0) && Storable(a.1)
  }

  function OwnKey(a: Address): string {
    FormatCacheKey(a.0, a.1)
  }

  /** A lookup tries the key of what it asks for and, for a custom domain, the bare slug. */
  predicate Tries(q: Address, key: string) {
    key == OwnKey(q) || (q.0 != "" && key == q.1)
  }

  /** Where a click that was asked for by q files the link stored at a. */
  function Refiled(a: Address, q: Address): string {
    FormatCacheKey(a.0, q.1)
  }

  // ---------- ambiguous lookups ----------

  /** Cut at its i-th character, the slug names a stored link other than the one asked for. */
  ghost predicate NamesAt(domain: string, slug: string, i: nat)
    requires i < |slug|
  {
    && slug[i] == ':' && Storable(slug[i + 1..])
    && var front := FormatCacheKey(domain, slug[..i]);
    || (front != "" && Normal(front))
    || (domain != "" && i > 0 && Normal(slug[..i]))
  }

  ghost predicate Ambiguous(q: Address) {
    exists i :: 0 <= i < |q.1| && NamesAt(q.0, q.1, i)
  }

  lemma StoredSlugsHoldNoColon(slug: string)
    requires Storable(slug)
    ensures forall i :: 0 <= i < |slug| ==> slug[i] != ':'
  {
    forall i | 0 <= i < |slug| ensures slug[i] != ':' {
      assert SlugChar(slug[i]);
    }
  }

  /** Two keys with the same text split at the last colon alike. */
  lemma KeySplitsAtLastColon(d: string, s: string, e: string, t: string)
    requires Storable(s) && d + ":" + s == e + ":" + t
    ensures |t| >= |s| && t[|t| - |s|..] == s
    ensures |t| > |s| ==> t[|t| - |s| - 1] == ':' && d == e + ":" + t[..|t| - |s| - 1]
    ensures |t| == |s| ==> d == e && s == t
  {
    StoredSlugsHoldNoColon(s);
    var k := d + ":" + s;
    assert k[|e|] == ':';
    assert k[|k| - |s|..] == s && k[..|d|] == d;
    assert (e + ":" + t)[|d|] == ':';
    assert forall i :: |d| < i < |k| ==> k[i] == s[i - |d| - 1];
    assert |e| <= |d|;
    assert k[|k| - |s|..] == t[|t| - |s|..];
    if |t| > |s| {
      assert (e + ":" + t)[..|d|] == e + ":" + t[..|t| - |s| - 1];
    } else {
      assert (e + ":" + t)[..|e|] == e;
    }
  }

  /** A colon-free key is tried only by those who ask for that very slug. */
  lemma RootKeyIsTriedByName(q: Address, slug: string)
    requires Storable(slug) && Tries(q, slug)
    ensures q.1 == slug
  {
    StoredSlugsHoldNoColon(slug);
    assert q.0 != "" ==> OwnKey(q)[|q.0|] == ':';
  }

  /** Trying the own key of a link under another slug is what ambiguity is. */
  lemma MistakenIsAmbiguous(q: Address, a: Address)
    requires Stored(a) && Tries(q, OwnKey(a)) && q.1 != a.1
    ensures Ambiguous(q)
  {
    if a.0 == "" {
      RootKeyIsTriedByName(q, a.1);
    } else if q.0 == "" || OwnKey(a) == q.1 {
      var i := |a.0|;
      assert q.1 == a.0 + ":" + a.1;
      assert q.1[..i] == a.0 && q.1[i + 1..] == a.1;
      assert NamesAt(q.0, q.1, i);
    } else {
      KeySplitsAtLastColon(a.0, a.1, q.0, q.1);
      var i := |q.1| - |a.1| - 1;
      assert FormatCacheKey(q.0, q.1[..i]) == a.0;
      assert NamesAt(q.0, q.1, i);
    }
  }

  lemma SplitAt(s: string, i: nat)
    requires i < |s| && s[i] == ':'
    ensures s == s[..i] + ":" + s[i + 1..]
  {
  }

  lemma JoinTwice(a: string, b: string, c: string)
    ensures (a + ":" + b) + ":" + c == a + ":" + (b + ":" + c)
  {
  }

  lemma AmbiguousNamesOne(q: Address) returns (a: Address)
    requires Ambiguous(q)
    ensures Stored(a) && a.0 != "" && Tries(q, OwnKey(a)) && q.1 != a.1
  {
    var i :| 0 <= i < |q.1| && NamesAt(q.0, q.1, i);
    var front, s := q.1[..i], q.1[i + 1..];
    SplitAt(q.1, i);
    if FormatCacheKey(q.0, front) != "" && Normal(FormatCacheKey(q.0, front)) {
      a := (FormatCacheKey(q.0, front), s);
      JoinTwice(q.0, front, s);
    } else {
      a := (front, s);
    }
  }

  /** A lookup is ambiguous exactly when it tries the key of some link that could be stored, while asking for
      another slug. */
  lemma AmbiguousExactly(q: Address)
    ensures Ambiguous(q) <==> exists a :: Stored(a) && Tries(q, OwnKey(a)) && q.1 != a.1
  {
    if Ambiguous(q) {
      var a := AmbiguousNamesOne(q);
    }
    forall a | Stored(a) && Tries(q, OwnKey(a)) && q.1 != a.1 ensures Ambiguous(q) {
      MistakenIsAmbiguous(q, a);
    }
  }

  /** Asking for a slug that can be stored is never ambiguous. */
  lemma StorableIsUnambiguous(q: Address)
    requires Storable(q.1)
    ensures !Ambiguous(q)
  {
    StoredSlugsHoldNoColon(q.1);
  }

  // ---------- the keys of one link ----------

  /** Lookups asked one after another, each trying the key the click of the one before filed the link under. */
  ghost predicate Leads(asked: iset<Address>, a: Address, path: seq<Address>) {
    path == [] ||
    var n := |path| - 1;
    Leads(asked, a, path[..n]) && path[n] in asked && Tries(path[n], KeyAfter(a, path[..n]))
  }

  function KeyAfter(a: Address, path: seq<Address>): string {
    if path == [] then OwnKey(a) else Refiled(a, path[|path| - 1])
  }

  /** The link stored at a may come to sit under this key when these addresses are asked for. */
  ghost predicate Files(asked: iset<Address>, a: Address, key: string) {
    exists path :: Leads(asked, a, path) && KeyAfter(a, path) == key
  }

  /** Some lookup asked tries the link's own key under another slug. */
  ghost predicate Mistaken(asked: iset<Address>, a: Address) {
    exists q :: q in asked && Tries(q, OwnKey(a)) && q.1 != a.1
  }

  /** And some lookup asked tries the key that leads to. */
  ghost predicate Strays(asked: iset<Address>, a: Address) {
    exists q, r :: q in asked && Tries(q, OwnKey(a)) && q.1 != a.1 && r in asked && Tries(r, Refiled(a, q))
  }

  /** Some lookup may find a copy that the click spending the budget does not drop: one under a stray key, or the
      link's own entry when the click asks for neither its slug nor its key. */
  ghost predicate Leaks(asked: iset<Address>, a: Address) {
    || Strays(asked, a)
    || exists q :: q in asked && OwnKey(q) == OwnKey(a) && q.1 != a.1 && q.1 != OwnKey(a)
  }

  /** Under no key it tries can this lookup find a link that some lookup mistakes. */
  ghost predicate Sure(asked: iset<Address>, q: Address) {
    forall a, key :: Stored(a) && Files(asked, a, key) && Tries(q, key) ==> !Mistaken(asked, a)
  }

  /** Some lookup may find the link, under whichever key, and ask for neither its slug nor its key: the click that
      spends the budget then leaves the link's own entry in place. */
  ghost predicate Slips(asked: iset<Address>, a: Address) {
    exists q, key ::
      q in asked && Files(asked, a, key) && Tries(q, key) && q.1 != a.1 && q.1 != OwnKey(a)
  }

  /** Under every key it tries this lookup can only find links by their own keys, and none that slips. */
  ghost predicate SureAlone(asked: iset<Address>, q: Address) {
    forall a, key :: Stored(a) && Files(asked, a, key) && Tries(q, key) ==> key == OwnKey(a) && !Slips(asked, a)
  }

  lemma FilesOwn(asked: iset<Address>, a: Address)
    ensures Files(asked, a, OwnKey(a))
  {
    assert Leads(asked, a, []) && KeyAfter(a, []) == OwnKey(a);
  }

  lemma FilesOn(asked: iset<Address>, a: Address, key: string, q: Address)
    requires Files(asked, a, key) && q in asked && Tries(q, key)
    ensures Files(asked, a, Refiled(a, q))
  {
    var path :| Leads(asked, a, path) && KeyAfter(a, path) == key;
    var more := path + [q];
    assert more[..|path|] == path;
    assert Leads(asked, a, more) && KeyAfter(a, more) == Refiled(a, q);
  }

  lemma SameSlugSameKey(a: Address, q: Address)
    ensures Refiled(a, q) == OwnKey(a) <==> q.1 == a.1
  {
    if a.0 != "" && Refiled(a, q) == OwnKey(a) {
      assert Refiled(a, q)[|a.0| + 1..] == q.1 && OwnKey(a)[|a.0| + 1..] == a.1;
    }
  }

  /** A link no lookup mistakes sits under its own key only. */
  lemma {:induction false} UnmistakenKeepsKey(asked: iset<Address>, a: Address, path: seq<Address>)
    requires !Mistaken(asked, a) && Leads(asked, a, path)
    ensures KeyAfter(a, path) == OwnKey(a)
  {
    if path != [] {
      var n := |path| - 1;
      UnmistakenKeepsKey(asked, a, path[..n]);
      SameSlugSameKey(a, path[n]);
    }
  }

  /** A link that does not stray is only ever found under its own key. */
  lemma {:induction false} UnstrayedIsFoundByKey(asked: iset<Address>, a: Address, path: seq<Address>, q: Address)
    requires !Strays(asked, a) && Leads(asked, a, path) && q in asked && Tries(q, KeyAfter(a, path))
    ensures KeyAfter(a, path) == OwnKey(a)
  {
    if path != [] {
      var n := |path| - 1;
      UnstrayedIsFoundByKey(asked, a, path[..n], path[n]);
      SameSlugSameKey(a, path[n]);
    }
  }

  /** Unless the link leaks, whatever its click drops includes its own key. */
  lemma UnleakedDropsOwnKey(asked: iset<Address>, a: Address, slug: string)
    requires !Leaks(asked, a) && Files(asked, a, FormatCacheKey(a.0, slug))
    ensures OwnKey(a) == FormatCacheKey(a.0, slug) || OwnKey(a) == slug
  {
    var path: seq<Address> :| Leads(asked, a, path) && KeyAfter(a, path) == FormatCacheKey(a.0, slug);
    if path != [] {
      var n := |path| - 1;
      UnstrayedIsFoundByKey(asked, a, path[..n], path[n]);
      assert Refiled(a, path[n]) == OwnKey((a.0, slug));
      SameSlugSameKey((a.0, slug), path[n]);
      SameSlugSameKey(a, path[n]);
    }
  }

  /** Unless the link slips, too. */
  lemma UnslippedDropsOwnKey(asked: iset<Address>, a: Address, slug: string)
    requires !Slips(asked, a) && Files(asked, a, FormatCacheKey(a.0, slug))
    ensures OwnKey(a) == FormatCacheKey(a.0, slug) || OwnKey(a) == slug
  {
    var path: seq<Address> :| Leads(asked, a, path) && KeyAfter(a, path) == FormatCacheKey(a.0, slug);
    if path != [] {
      var n := |path| - 1;
      assert Files(asked, a, KeyAfter(a, path[..n]));
      assert Refiled(a, path[n]) == OwnKey((a.0, slug));
      SameSlugSameKey((a.0, slug), path[n]);
    }
  }

  /** Nobody can mistake a link of the root domain. */
  lemma RootIsUnmistaken(asked: iset<Address>, a: Address)
    requires Stored(a) && a.0 == ""
    ensures !Mistaken(asked, a)
  {
    forall q | q in asked && Tries(q, OwnKey(a)) ensures q.1 == a.1 {
      RootKeyIsTriedByName(q, a.1);
    }
  }

  lemma RootKeepsKey(asked: iset<Address>, a: Address, key: string)
    requires Stored(a) && a.0 == "" && Files(asked, a, key)
    ensures key == OwnKey(a)
  {
    var path :| Leads(asked, a, path) && KeyAfter(a, path) == key;
    RootIsUnmistaken(asked, a);
    UnmistakenKeepsKey(asked, a, path);
  }

  /** An unambiguous lookup that finds a domain's link under its own key is a lookup of its address. */
  lemma UnambiguousFindsTheAddress(asked: iset<Address>, a: Address, q: Address)
    requires Stored(a) && Tries(q, OwnKey(a)) && !Ambiguous(q)
    ensures q.1 == a.1 && (a.0 == q.0 || a.0 == "")
  {
    FilesOwn(asked, a);
    UnambiguousFindsTheSlug(asked, a, OwnKey(a), q);
    if a.0 != "" {
      KeySplitsAtLastColon(a.0, a.1, q.0, q.1);
    }
  }

  lemma StrayIsOfADomain(asked: iset<Address>, a: Address)
    requires Stored(a) && Strays(asked, a)
    ensures a.0 != ""
  {
    if a.0 == "" {
      RootIsUnmistaken(asked, a);
    }
  }

  /** A mistaken lookup's slug is longer than the link's own, and so is the key it leads to. */
  lemma StrayKeyIsLonger(a: Address, q: Address)
    requires Stored(a) && a.0 != "" && Tries(q, OwnKey(a)) && q.1 != a.1
    ensures |Refiled(a, q)| > |OwnKey(a)|
  {
    if q.0 != "" && OwnKey(q) == OwnKey(a) {
      KeySplitsAtLastColon(a.0, a.1, q.0, q.1);
    }
  }

  /** Any key of a domain's link is a key that domain, or another, could store the slug under. */
  ghost predicate Spells(key: string, front: string, slug: string) {
    front != "" && Normal(front) && key == front + ":" + slug
  }

  lemma NormalJoin(d: string, front: string, k: nat)
    requires d != "" && Normal(d) && Normal(front) && k <= |front|
    ensures Normal(d + ":" + front[k..])
  {
    assert !IsUpper(':');
  }

  lemma FrontGrows(d: string, front: string, q: Address, slug: string) returns (longer: string)
    requires d != "" && Normal(d) && Storable(slug) && Spells(front + ":" + slug, front, slug)
    requires Tries(q, front + ":" + slug)
    ensures Spells(FormatCacheKey(d, q.1), longer, slug)
  {
    if q.1 == front + ":" + slug {
      longer := d + ":" + front;
      JoinTwice(d, front, slug);
      NormalJoin(d, front, 0);
    } else {
      KeySplitsAtLastColon(front, slug, q.0, q.1);
      if q.1 == slug {
        longer := d;
      } else {
        var mid := q.1[..|q.1| - |slug| - 1];
        SplitAt(q.1, |mid|);
        longer := d + ":" + mid;
        JoinTwice(d, mid, slug);
        assert front[|q.0| + 1..] == mid;
        NormalJoin(d, front, |q.0| + 1);
      }
    }
  }

  lemma {:induction false} KeysSpellTheSlug(asked: iset<Address>, a: Address, path: seq<Address>)
    returns (front: string)
    requires Stored(a) && Leads(asked, a, path)
    ensures a.0 == "" ==> KeyAfter(a, path) == a.1
    ensures a.0 != "" ==> Spells(KeyAfter(a, path), front, a.1)
  {
    front := a.0;
    if path != [] {
      var n := |path| - 1;
      front := KeysSpellTheSlug(asked, a, path[..n]);
      if a.0 == "" {
        RootKeyIsTriedByName(path[n], a.1);
      } else {
        front := FrontGrows(a.0, front, path[n], a.1);
      }
    }
  }

  /** An unambiguous lookup that finds a link under any of its keys asked for that link's slug, and finds it
      under the key of its own domain or of the root. */
  lemma UnambiguousFindsTheSlug(asked: iset<Address>, a: Address, key: string, q: Address)
    requires Stored(a) && Files(asked, a, key) && Tries(q, key) && !Ambiguous(q)
    ensures q.1 == a.1
    ensures a.0 != "" ==> q.0 != "" && key == OwnKey(q)
    ensures !Mistaken(asked, a) ==> a.0 == q.0 || a.0 == ""
  {
    var path :| Leads(asked, a, path) && KeyAfter(a, path) == key;
    var front := KeysSpellTheSlug(asked, a, path);
    if a.0 == "" {
      RootKeyIsTriedByName(q, a.1);
    } else {
      assert OwnKey((front, a.1)) == key && Stored((front, a.1));
      if q.1 != a.1 {
        MistakenIsAmbiguous(q, (front, a.1));
      }
      assert |key| > |a.1|;
      if !Mistaken(asked, a) {
        UnmistakenKeepsKey(asked, a, path);
        KeySplitsAtLastColon(a.0, a.1, q.0, q.1);
      }
    }
  }
}
