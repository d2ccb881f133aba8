/** The link service called by one goroutine at a time: each operation as the program writes it, over a
    table and the cache object, with everything it leaves behind. */
module LinkService {
  import opened Wrappers
  import opened Links
  import opened LinkKeys
  import opened LinkStore
  import opened LinkStoreInvariant
  import opened LinkStoreSteps
  import opened LinkEffects
  import C = CacheModel
  import L = LinkCache
  import T = Texts

  class LinkService {
    var links: map<string, Link>
    const cache: L.LinkCache
    ghost var born: map<string, Address> // the address each id was created with

    ghost predicate Valid()
      reads this, cache, cache.evictList, cache.evictList.ring
    {
      this !in cache.Repr() && cache.Valid() && TableOk(links, born)
    }

    /** Each cache entry sits under the key of, and copies, a row now in the table. */
    ghost predicate InStep()
      reads this, cache, cache.evictList
    {
      Coherent(cache.Contents(), links)
    }

    /** What the service's lock guards. */
    ghost function Guarded(): Store
      reads this, cache, cache.evictList
    {
      Store(links, cache.Contents())
    }

    ghost function Repr(): set<object>
      reads this, cache, cache.evictList
    {
      {this} + cache.Repr()
    }

    constructor (cache: L.LinkCache)
      requires cache.Valid() && cache.Contents() == []
      ensures Valid() && InStep() && this.cache == cache && links == map[] && fresh(Repr() - cache.Repr())
    {
      this.cache := cache;
      links := map[];
      born := map[];
    }

    /** The row of a slug at a domain, or failing that at the root. */
    method GetBySlugRaw(domain: string, slug: string) returns (row: Option<Link>)
      requires TableOk(links, born)
      ensures row == FoundIn(links, domain, slug)
    {
      RawPrefersTheDomain(links, born, domain, slug);
      if exists id :: id in links && IsRaw(links, domain, slug, id) {
        var id :| id in links && IsRaw(links, domain, slug, id);
        row := Some(links[id]);
        RawIsAny(links, born, domain, slug, id);
      } else {
        row := None;
      }
    }

    /** The domain's row, else the root's. */
    method FindRow(domain: string, slug: string) returns (row: Option<Link>)
      requires TableOk(links, born)
      ensures row == FoundIn(links, domain, slug)
    {
      row := GetBySlugRaw(domain, slug);
      if row.None? && domain != "" {
        row := GetBySlugRaw("", slug);
      }
    }

    /** What a lookup does that missed the cache. */
    method Load(domain: string, slug: string, now: int) returns (answer: Answer)
      requires Valid()
      modifies cache.Repr()
      ensures Valid() && fresh(Repr() - old(Repr()))
      ensures answer == AnswerOf(FoundIn(links, domain, slug), now)
      ensures cache.Contents() == Filled(old(cache.Contents()), cache.capacity, FoundIn(links, domain, slug), now)
    {
      var row := FindRow(domain, slug);
      if row.None? {
        return Missing;
      }
      var link := row.value;
      if link.IsExpired(now) {
        return Ended(link);
      }
      cache.Set(link.domain, link.slug, Some(link), now);
      return Found(link);
    }

    /** The cache first, the table otherwise; a live row is cached, an ended cache entry dropped. */
    method Resolve(domain: string, slug: string, now: int) returns (answer: Answer)
      requires Valid()
      modifies cache.Repr()
      ensures Valid() && fresh(Repr() - old(Repr()))
      ensures answer == ResolveAnswer(old(cache.Contents()), cache.ttl, links, now, domain, slug)
      ensures !answer.Missing? ==>
        (answer.Found? <==>
          && answer.link.isActive
          && (forall date :: answer.link.expiresAt == Some(date) && 0 < date ==> now < date)
          && (forall budget :: answer.link.maxClicks == Some(budget) && 0 < budget ==> answer.link.clickCount < budget))
      ensures cache.Contents()
              == ResolveCache(old(cache.Contents()), cache.capacity, cache.ttl, links, now, domain, slug)
      ensures old(InStep()) ==> InStep()
    {
      ResolveKeeps(cache.Contents(), cache.capacity, cache.ttl, links, born, now, domain, slug);
      var cached := cache.Get(domain, slug, now);
      if cached.Some? {
        EndedExactly(cached.value, now);
        if cached.value.IsExpired(now) {
          cache.Delete(domain, slug);
          return Ended(cached.value);
        }
        return Found(cached.value);
      }
      answer := Load(domain, slug, now);
      if !answer.Missing? {
        EndedExactly(answer.link, now);
      }
    }

    /** The statements of a click: the counter, then the variant's counter inside the row. */
    method CountClick(k: Click, now: int) returns (updated: Option<Link>)
      requires TableOk(links, born)
      modifies this`links
      ensures updated.Some? <==> k.id in old(links)
      ensures updated.None? ==> links == old(links)
      ensures updated.Some? ==>
        links == old(links)[k.id := updated.value] && updated.value == ClickedRow(old(links)[k.id], k.variant, now)
    {
      if k.id in links {
        links := links[k.id := links[k.id].(clickCount := links[k.id].clickCount + 1, lastClickedAt := Some(now))];
      }
      if k.id !in links {
        return None;
      }
      var row := links[k.id];
      if k.variant != "" && |row.variants| > 0 {
        var vs := TallyVariant(row.variants, k.variant);
        row := row.(variants := vs);
        links := links[k.id := links[k.id].(variants := vs)];
      }
      updated := Some(row);
    }

    /** Under the address of a click, the cache forgets an ended link and stores any other. */
    method Refresh(k: Click, row: Link, now: int)
      requires Valid()
      modifies cache.Repr()
      ensures Valid() && fresh(Repr() - old(Repr()))
      ensures cache.Contents() == Refreshed(old(cache.Contents()), cache.capacity, now, k, row)
    {
      if row.IsExpired(now) {
        cache.Delete(k.domain, k.slug);
      } else {
        cache.Set(k.domain, k.slug, Some(row), now);
      }
    }

    /** Counts a click and refreshes the cache, under the address the click was asked for, from the row as it
        is now and not as the redirect saw it. Under the link's own address the cache stays in step. */
    method RecordClick(k: Click, now: int)
      requires Valid()
      modifies this`links, cache.Repr()
      ensures Valid() && fresh(Repr() - old(Repr()))
      ensures Guarded() == AfterClick(old(Guarded()), cache.capacity, k, now, now)
      ensures old(InStep()) && (k.id in old(links) ==> At(old(links)[k.id], k.domain, k.slug)) ==> InStep()
    {
      ghost var s, before := cache.Contents(), links;
      var updated := CountClick(k, now);
      if updated.Some? {
        RowUpdateKeepsTableOk(before, born, k.id, updated.value);
        ClickKeeps(s, cache.capacity, before, updated.value, k, now);
        Refresh(k, updated.value, now);
      }
    }

    /** A row goes into the table and a copy into the cache. */
    method Write(row: Link, copy: Link, now: int)
      requires this !in cache.Repr() && cache.Valid() && TableOk(links[row.id := row], born)
      modifies this`links, cache.Repr()
      ensures Valid() && fresh(Repr() - old(Repr()))
      ensures links == old(links)[row.id := row]
      ensures cache.Contents() == C.Set(old(cache.Contents()), cache.capacity, now, copy.domain, copy.slug, copy)
    {
      links := links[row.id := row];
      ghost var rows := links;
      cache.Set(copy.domain, copy.slug, Some(copy), now);
      assert links == rows && TableOk(links, born);
    }

    /** Inserts a new row at a free address and caches it; refuses a bad request or a taken slug. */
    method Create(r: CreateRequest, id: string, generated: string, now: int) returns (link: Option<Link>)
      requires Valid() && id !in born && Generated(generated) && Normal(r.domain)
      modifies this, cache.Repr()
      ensures Valid() && fresh(Repr() - old(Repr()))
      ensures link == Created(old(links), r, id, generated, now)
      ensures Guarded() == AfterCreate(old(Guarded()), cache.capacity, r, id, generated, now, now)
      ensures old(InStep()) ==> InStep()
    {
      link := Choose(r, id, generated, now);
      if link.Some? {
        Insert(link.value, now);
      }
    }

    /** The row for a sound request at a free address. */
    method Choose(r: CreateRequest, id: string, generated: string, now: int) returns (link: Option<Link>)
      requires Generated(generated)
      ensures link == Created(links, r, id, generated, now)
    {
      GeneratedIsStorable(generated);
      var slug := SlugOf(r, generated);
      if !r.accepted || (r.customSlug != "" && !Storable(slug)) || Exists(links, r.domain, slug) {
        return None;
      }
      link := Some(Compose(id, slug, r, now));
    }

    /** A new row goes into table and cache. */
    method Insert(l: Link, now: int)
      requires Valid() && l.id !in born && Stored(HomeOf(l)) && !Exists(links, l.domain, l.slug)
      modifies this, cache.Repr()
      ensures Valid() && fresh(Repr() - old(Repr()))
      ensures Guarded() == Store(old(links)[l.id := l], Published(old(cache.Contents()), cache.capacity, now, l))
      ensures old(InStep()) ==> InStep()
    {
      NewRowKeepsTableOk(links, born, l);
      InsertKeeps(cache.Contents(), cache.capacity, links, l, now);
      born := born[l.id := (l.domain, l.slug)];
      Write(l, l, now);
    }

    /** Edits a row its owner or an administrator may edit, and republishes it. */
    method Update(id: string, e: Edit, user: string, isAdmin: bool, now: int) returns (link: Option<Link>)
      requires Valid()
      modifies this`links, cache.Repr()
      ensures Valid() && fresh(Repr() - old(Repr()))
      ensures link == Updated(old(links), id, e, user, isAdmin, now)
      ensures Guarded() == AfterUpdate(old(Guarded()), cache.capacity, id, e, user, isAdmin, now, now)
      ensures old(InStep()) ==> InStep()
    {
      if id !in links || (!isAdmin && links[id].createdBy != user) || Edited(links[id], e, now).None? {
        return None;
      }
      var l := Edited(links[id], e, now).value;
      WritingAnEditStoresIt(links[id], e, now);
      RowUpdateKeepsTableOk(links, born, id, l);
      RefreshKeeps(cache.Contents(), cache.capacity, links, l, now);
      Write(WriteColumns(links[id], l), l, now);
      link := Some(l);
    }

    /** Removes a row its owner or an administrator may remove, and its cache entry. */
    method Delete(id: string, user: string, isAdmin: bool) returns (ok: bool)
      requires Valid()
      modifies this`links, cache.Repr()
      ensures Valid() && fresh(Repr() - old(Repr()))
      ensures ok <==> MayChange(old(links), id, user, isAdmin)
      ensures Guarded() == AfterDelete(old(Guarded()), id, user, isAdmin)
      ensures old(InStep()) ==> InStep()
    {
      if id !in links || (!isAdmin && links[id].createdBy != user) {
        return false;
      }
      var l := links[id];
      RemovalKeepsTableOk(links, born, id);
      RemovalKeeps(cache.Contents(), links, l);
      links := links - {id};
      cache.Delete(l.domain, l.slug);
      ok := true;
    }
  }

  // ---------- what a lookup answers and leaves ----------

  lemma CoherentHit(cache: seq<C.Entry>, ttl: int, links: Table, born: Addresses, now: int, q: Address)
    requires Coherent(cache, links) && TableOk(links, born) && C.Get(cache, ttl, now, q.0, q.1).hit.Some?
    ensures var l := C.Get(cache, ttl, now, q.0, q.1).hit.value;
            LiveCopy(links, l) && (!Ambiguous(q) ==> At(l, q.0, q.1) || At(l, "", q.1))
  {
    var key := C.HitKey(cache, q.0, q.1).value;
    var e := C.Find(cache, key);
    var a := HomeOf(e.link);
    CoherentMember(cache, links, e);
    assert Known(born, links[e.link.id]) && HomeOf(links[e.link.id]) == a;
    if !Ambiguous(q) {
      FilesOwn(iset{}, a);
      UnambiguousFindsTheSlug(iset{}, a, key, q);
    }
  }

  lemma HitIsFoundAgain(cache: seq<C.Entry>, ttl: int, now: int, d: string, g: string)
    requires C.Get(cache, ttl, now, d, g).hit.Some?
    ensures C.Get(C.Get(cache, ttl, now, d, g).list, ttl, now, d, g).hit == C.Get(cache, ttl, now, d, g).hit
  {
    var key := C.HitKey(cache, d, g).value;
    var list := C.Get(cache, ttl, now, d, g).list;
    C.WithoutMembers(cache, key);
    assert list[0].key == key;
    if key != FormatCacheKey(d, g) {
      C.HasIsMembership(cache, FormatCacheKey(d, g));
      C.HasIsMembership(list, FormatCacheKey(d, g));
    }
  }

  lemma MissLeavesNoOwnEntry(cache: seq<C.Entry>, ttl: int, now: int, d: string, g: string)
    requires C.Distinct(cache) && C.Get(cache, ttl, now, d, g).hit.None?
    ensures !C.Has(C.Get(cache, ttl, now, d, g).list, FormatCacheKey(d, g))
  {
    if C.HitKey(cache, d, g).Some? {
      var key := C.HitKey(cache, d, g).value;
      C.WithoutKeepsDistinct(cache, key);
      C.WithoutMembers(cache, key);
      C.HasIsMembership(cache, FormatCacheKey(d, g));
      C.HasIsMembership(C.Without(cache, key), FormatCacheKey(d, g));
    }
  }

  lemma RowIsFoundAgain(cache: seq<C.Entry>, capacity: nat, ttl: int, now: int, l: Link, d: string)
    requires ttl >= 0 && (l.domain == d || l.domain == "") && !C.Has(cache, FormatCacheKey(d, l.slug))
    ensures C.Get(C.Set(cache, capacity, now, l.domain, l.slug, l), ttl, now, d, l.slug).hit == Some(l)
  {
    var key, own := FormatCacheKey(l.domain, l.slug), FormatCacheKey(d, l.slug);
    var list := C.Set(cache, capacity, now, l.domain, l.slug, l);
    assert list[0] == C.Entry(key, l, now);
    if key != own {
      forall e | e in list ensures e.key != own {
        if e != list[0] {
          assert e in list[1..];
          SetKeepsOthers(cache, capacity, now, l.domain, l.slug, l, e);
          C.HasIsMembership(cache, own);
        }
      }
      C.HasIsMembership(list, own);
    }
  }

  /** Asking again at once: what was found is found again, without the table; what had ended is found in the cache no
      more if it was found there, and a lookup that reads an ended row, or none, stores nothing. */
  lemma AskingAgain(cache: seq<C.Entry>, capacity: nat, ttl: int, links: Table, born: Addresses, now: int, q: Address)
    requires C.Distinct(cache) && ttl >= 0 && TableOk(links, born)
    ensures var answer := ResolveAnswer(cache, ttl, links, now, q.0, q.1);
            var left := ResolveCache(cache, capacity, ttl, links, now, q.0, q.1);
            var again := C.Get(left, ttl, now, q.0, q.1).hit;
            && (answer.Found? ==> again == Some(answer.link))
            && (!answer.Found? && C.Get(cache, ttl, now, q.0, q.1).hit.Some? ==> again == None)
            && (!answer.Found? && C.Get(cache, ttl, now, q.0, q.1).hit.None? ==>
                  left == C.Get(cache, ttl, now, q.0, q.1).list)
  {
    var r := C.Get(cache, ttl, now, q.0, q.1);
    if r.hit.Some? {
      HitIsFoundAgain(cache, ttl, now, q.0, q.1);
      C.DeleteRemovesBothKeys(r.list, ttl, now, q.0, q.1);
    } else {
      MissLeavesNoOwnEntry(cache, ttl, now, q.0, q.1);
      FoundInIsAt(links, born, q);
      var found := FoundIn(links, q.0, q.1);
      if found.Some? {
        RowIsFoundAgain(r.list, capacity, ttl, now, found.value, q.0);
      }
    }
  }

  lemma FoundInIsAt(links: Table, born: Addresses, q: Address)
    requires TableOk(links, born)
    ensures FoundIn(links, q.0, q.1).None? <==> !Exists(links, q.0, q.1) && !Exists(links, "", q.1)
    ensures FoundIn(links, q.0, q.1).Some? ==>
              var l := FoundIn(links, q.0, q.1).value; LiveCopy(links, l) && (At(l, q.0, q.1) || At(l, "", q.1))
  {
  }

  /** A coherent cache answers with a current row, the one the table has for an unambiguous address. */
  lemma CoherentAnswers(cache: seq<C.Entry>, ttl: int, links: Table, born: Addresses, now: int, q: Address)
    requires Coherent(cache, links) && TableOk(links, born)
    ensures var answer := ResolveAnswer(cache, ttl, links, now, q.0, q.1);
            && (answer.Missing? ==> !Exists(links, q.0, q.1) && !Exists(links, "", q.1))
            && (!answer.Missing? ==> LiveCopy(links, answer.link) && (answer.Ended? <==> answer.link.IsExpired(now)))
            && (!answer.Missing? && !Ambiguous(q) ==> At(answer.link, q.0, q.1) || At(answer.link, "", q.1))
  {
    FoundInIsAt(links, born, q);
    if C.Get(cache, ttl, now, q.0, q.1).hit.Some? {
      CoherentHit(cache, ttl, links, born, now, q);
    }
  }

  /** The loop over the variants: the first of that name gets the click. */
  method TallyVariant(variants: seq<Variant>, name: string) returns (vs: seq<Variant>)
    ensures vs == CountVariant(variants, name)
  {
    vs := variants;
    var i := 0;
    while i < |vs|
      invariant 0 <= i <= |vs| && vs == variants
      invariant forall j :: 0 <= j < i ==> vs[j].name != name
    {
      if vs[i].name == name {
        vs := vs[i := vs[i].(clickCount := vs[i].clickCount + 1)];
        FirstIsCounted(variants, name, i);
        return;
      }
      i := i + 1;
    }
    FirstIsCounted(variants, name, |variants|);
  }

  function VariantClicks(vs: seq<Variant>): int {
    if vs == [] then 0 else vs[0].clickCount + VariantClicks(vs[1..])
  }

  /** A click on a known variant adds exactly one to the variants' total, on an unknown one nothing;
      names, targets and weights stay. */
  lemma {:induction false} TallyAddsOneClick(vs: seq<Variant>, name: string)
    ensures var r := CountVariant(vs, name);
            VariantClicks(r) == VariantClicks(vs) + (if exists i :: 0 <= i < |vs| && vs[i].name == name then 1 else 0)
    ensures var r := CountVariant(vs, name);
            forall i :: 0 <= i < |vs| ==> r[i].(clickCount := vs[i].clickCount) == vs[i]
    ensures var r := CountVariant(vs, name);
            forall i :: 0 <= i < |vs| && r[i] != vs[i] ==>
              vs[i].name == name && forall j :: 0 <= j < i ==> vs[j].name != name
  {
    if vs != [] {
      TallyAddsOneClick(vs[1..], name);
      var r := CountVariant(vs, name);
      if vs[0].name != name {
        assert r[1..] == CountVariant(vs[1..], name);
        assert (exists i :: 0 <= i < |vs| && vs[i].name == name)
          <==> (exists i :: 0 <= i < |vs[1..]| && vs[1..][i].name == name) by {
          if i :| 0 <= i < |vs| && vs[i].name == name {
            assert vs[1..][i - 1].name == name;
          }
        }
        forall i | 0 <= i < |vs| ensures r[i] == if i == 0 then vs[0] else CountVariant(vs[1..], name)[i - 1] {
        }
      }
    }
  }

  // ---------- staying in step ----------

  lemma CoherentMember(cache: seq<C.Entry>, links: Table, e: C.Entry)
    requires Coherent(cache, links) && e in cache
    ensures e.key == OwnKey(HomeOf(e.link)) && LiveCopy(links, e.link)
  {
  }

  lemma CoherentFrom(cache: seq<C.Entry>, links: Table)
    requires forall e :: e in cache ==> e.key == OwnKey(HomeOf(e.link)) && LiveCopy(links, e.link)
    ensures Coherent(cache, links)
  {
    forall i | 0 <= i < |cache|
      ensures cache[i].key == OwnKey(HomeOf(cache[i].link)) && LiveCopy(links, cache[i].link)
    {
      assert cache[i] in cache;
    }
  }

  /** Storing the copy of one changed or new row, the others being as they were. */
  lemma SetKeeps(cache: seq<C.Entry>, capacity: nat, links: Table, links': Table, l: Link, now: int)
    requires Coherent(cache, links) && LiveCopy(links', l)
    requires forall j :: j in links && j != l.id ==> j in links' && links'[j] == links[j]
    requires l.id in links ==> HomeOf(links[l.id]) == HomeOf(l)
    ensures Coherent(C.Set(cache, capacity, now, l.domain, l.slug, l), links')
  {
    var r := C.Set(cache, capacity, now, l.domain, l.slug, l);
    forall e | e in r ensures e.key == OwnKey(HomeOf(e.link)) && LiveCopy(links', e.link) {
      if e != r[0] {
        assert e in r[1..];
        SetKeepsOthers(cache, capacity, now, l.domain, l.slug, l, e);
        CoherentMember(cache, links, e);
      }
    }
    CoherentFrom(r, links');
  }

  /** Dropping the copy of one changed or removed row, and perhaps another. */
  lemma DropKeeps(cache: seq<C.Entry>, links: Table, links': Table, id: string, d: string, g: string)
    requires Coherent(cache, links) && id in links && HomeOf(links[id]) == (d, g)
    requires forall j :: j in links && j != id ==> j in links' && links'[j] == links[j]
    ensures Coherent(C.Delete(cache, d, g), links')
  {
    C.WithoutMembers(cache, FormatCacheKey(d, g));
    C.WithoutMembers(C.Without(cache, FormatCacheKey(d, g)), g);
    forall e | e in C.Delete(cache, d, g) ensures e.key == OwnKey(HomeOf(e.link)) && LiveCopy(links', e.link) {
      CoherentMember(cache, links, e);
    }
    CoherentFrom(C.Delete(cache, d, g), links');
  }

  lemma ShrinkingKeeps(cache: seq<C.Entry>, fewer: seq<C.Entry>, links: Table)
    requires Coherent(cache, links) && forall e :: e in fewer ==> e in cache
    ensures Coherent(fewer, links)
  {
    forall e | e in fewer ensures e.key == OwnKey(HomeOf(e.link)) && LiveCopy(links, e.link) {
      CoherentMember(cache, links, e);
    }
    CoherentFrom(fewer, links);
  }

  lemma GetShrinks(cache: seq<C.Entry>, ttl: int, now: int, d: string, g: string)
    ensures forall e :: e in C.Get(cache, ttl, now, d, g).list ==> e in cache
  {
    if C.HitKey(cache, d, g).Some? {
      C.WithoutMembers(cache, C.HitKey(cache, d, g).value);
    }
  }

  lemma DeleteShrinks(cache: seq<C.Entry>, d: string, g: string)
    ensures forall e :: e in C.Delete(cache, d, g) ==> e in cache
  {
    C.WithoutMembers(cache, FormatCacheKey(d, g));
    C.WithoutMembers(C.Without(cache, FormatCacheKey(d, g)), g);
  }

  lemma ResolveKeeps(cache: seq<C.Entry>, capacity: nat, ttl: int, links: Table, born: Addresses, now: int, d: string,
                     g: string)
    requires TableOk(links, born)
    ensures Coherent(cache, links) ==> Coherent(ResolveCache(cache, capacity, ttl, links, now, d, g), links)
  {
    if Coherent(cache, links) {
      var list := C.Get(cache, ttl, now, d, g).list;
      GetShrinks(cache, ttl, now, d, g);
      ShrinkingKeeps(cache, list, links);
      DeleteShrinks(list, d, g);
      ShrinkingKeeps(list, C.Delete(list, d, g), links);
      var row := FoundIn(links, d, g);
      if row.Some? {
        SetKeeps(list, capacity, links, links, row.value, now);
      }
    }
  }

  /** A changed row and its refreshed cache entry. */
  lemma RefreshKeeps(cache: seq<C.Entry>, capacity: nat, links: Table, row: Link, now: int)
    requires row.id in links && HomeOf(row) == HomeOf(links[row.id])
    ensures Coherent(cache, links) ==>
              && Coherent(C.Set(cache, capacity, now, row.domain, row.slug, row), links[row.id := row])
              && Coherent(C.Delete(cache, row.domain, row.slug), links[row.id := row])
  {
    if Coherent(cache, links) {
      SetKeeps(cache, capacity, links, links[row.id := row], row, now);
      DropKeeps(cache, links, links[row.id := row], row.id, row.domain, row.slug);
    }
  }

  lemma ClickKeeps(cache: seq<C.Entry>, capacity: nat, links: Table, row: Link, k: Click, now: int)
    requires row.id in links && HomeOf(row) == HomeOf(links[row.id])
    ensures Coherent(cache, links) && At(row, k.domain, k.slug) ==>
              && Coherent(C.Set(cache, capacity, now, k.domain, k.slug, row), links[row.id := row])
              && Coherent(C.Delete(cache, k.domain, k.slug), links[row.id := row])
  {
    RefreshKeeps(cache, capacity, links, row, now);
  }

  lemma InsertKeeps(cache: seq<C.Entry>, capacity: nat, links: Table, l: Link, now: int)
    requires l.id !in links
    ensures Coherent(cache, links) ==> Coherent(C.Set(cache, capacity, now, l.domain, l.slug, l), links[l.id := l])
  {
    if Coherent(cache, links) {
      SetKeeps(cache, capacity, links, links[l.id := l], l, now);
    }
  }

  lemma RemovalKeeps(cache: seq<C.Entry>, links: Table, row: Link)
    requires row.id in links && links[row.id] == row
    ensures Coherent(cache, links) ==> Coherent(C.Delete(cache, row.domain, row.slug), links - {row.id})
  {
    if Coherent(cache, links) {
      DropKeeps(cache, links, links - {row.id}, row.id, row.domain, row.slug);
    }
  }

  /** All answers to the ordered query agree: the domain's row, else the root's. */
  lemma RawIsAny(links: Table, born: Addresses, d: string, g: string, id: string)
    requires TableOk(links, born) && IsRaw(links, d, g, id)
    ensures FoundIn(links, d, g) == Some(links[id])
  {
    if Exists(links, d, g) {
      var j :| j in links && At(links[j], d, g);
      assert T.AtMost(links[j].domain, links[id].domain);
    }
  }
}
