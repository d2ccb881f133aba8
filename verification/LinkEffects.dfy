/** What each operation of the link service, called as a whole, makes of the table and the cache. */
module LinkEffects {
  import opened Wrappers
  import opened Links
  import opened LinkStore
  import opened LinkStoreInvariant
  import C = CacheModel

  /** What the read-write lock guards: the rows and the cache entries. */
  datatype Store = Store(links: Table, cache: seq<C.Entry>)

  // ---------- lookups ----------

  /** The domain's row if there is one, else the root's. */
  ghost function FoundIn(links: Table, domain: string, slug: string): Option<Link> {
    if Exists(links, domain, slug) then Some(RowAt(links, domain, slug))
    else if Exists(links, "", slug) then Some(RowAt(links, "", slug))
    else None
  }

  function AnswerOf(found: Option<Link>, now: int): Answer {
    if found.None? then Missing else if found.value.IsExpired(now) then Ended(found.value) else Found(found.value)
  }

  function Filled(cache: seq<C.Entry>, capacity: nat, row: Option<Link>, now: int): seq<C.Entry> {
    if row.Some? && !row.value.IsExpired(now)
    then C.Set(cache, capacity, now, row.value.domain, row.value.slug, row.value)
    else cache
  }

  ghost function ResolveAnswer(cache: seq<C.Entry>, ttl: int, links: Table, now: int, d: string, g: string): Answer {
    var hit := C.Get(cache, ttl, now, d, g).hit;
    AnswerOf(if hit.Some? then hit else FoundIn(links, d, g), now)
  }

  ghost function ResolveCache(cache: seq<C.Entry>, capacity: nat, ttl: int, links: Table, now: int,
                              d: string, g: string): seq<C.Entry> {
    var r := C.Get(cache, ttl, now, d, g);
    if r.hit.None? then Filled(r.list, capacity, FoundIn(links, d, g), now)
    else if r.hit.value.IsExpired(now) then C.Delete(r.list, d, g) else r.list
  }

  // ---------- clicks ----------

  /** A row after one click that went to the named variant, or to none. */
  function ClickedRow(row: Link, variant: string, now: int): Link {
    ClickedOnce(row, now).(variants := if variant == "" then row.variants else CountVariant(row.variants, variant))
  }

  /** What a click makes of the cache when the row, as it is now, lives on or has ended. */
  function Refreshed(cache: seq<C.Entry>, capacity: nat, now: int, k: Click, row: Link): seq<C.Entry> {
    if row.IsExpired(now) then C.Delete(cache, k.domain, k.slug)
    else C.Set(cache, capacity, now, k.domain, k.slug, row)
  }

  /** A click written at one clock reading, the cache refreshed at a later one. */
  function AfterClick(s: Store, capacity: nat, k: Click, at: int, later: int): Store {
    if k.id !in s.links then s
    else
      var row := ClickedRow(s.links[k.id], k.variant, at);
      Store(s.links[k.id := row], Refreshed(s.cache, capacity, later, k, row))
  }

  // ---------- creating, editing, deleting ----------

  function Published(cache: seq<C.Entry>, capacity: nat, now: int, l: Link): seq<C.Entry> {
    C.Set(cache, capacity, now, l.domain, l.slug, l)
  }

  function SlugOf(r: CreateRequest, generated: string): string {
    if r.customSlug != "" then r.customSlug else generated
  }

  /** The new link, if the request is sound and its address free. */
  function Created(links: Table, r: CreateRequest, id: string, generated: string, now: int): Option<Link> {
    var slug := SlugOf(r, generated);
    if r.accepted && Storable(slug) && !Exists(links, r.domain, slug) then Some(Compose(id, slug, r, now)) else None
  }

  function AfterCreate(s: Store, capacity: nat, r: CreateRequest, id: string, generated: string, at: int, later: int)
    : Store {
    match Created(s.links, r, id, generated, at)
    case None => s
    case Some(l) => Store(s.links[id := l], Published(s.cache, capacity, later, l))
  }

  /** The row is there, and this user's to change. */
  predicate MayChange(links: Table, id: string, user: string, isAdmin: bool) {
    id in links && (isAdmin || links[id].createdBy == user)
  }

  /** The link as edited, if the edit is sound and this user's to make. */
  function Updated(links: Table, id: string, e: Edit, user: string, isAdmin: bool, now: int): Option<Link> {
    if MayChange(links, id, user, isAdmin) then Edited(links[id], e, now) else None
  }

  function AfterUpdate(s: Store, capacity: nat, id: string, e: Edit, user: string, isAdmin: bool, at: int, later: int)
    : Store {
    match Updated(s.links, id, e, user, isAdmin, at)
    case None => s
    case Some(l) => Store(s.links[id := l], Published(s.cache, capacity, later, l))
  }

  function AfterDelete(s: Store, id: string, user: string, isAdmin: bool): Store {
    if MayChange(s.links, id, user, isAdmin)
    then Store(s.links - {id}, C.Delete(s.cache, s.links[id].domain, s.links[id].slug))
    else s
  }

  function AfterJob(s: Store, capacity: nat, job: Job, o: Oracle, at: int, later: int): Store {
    match job
    case ClickJob(k) => AfterClick(s, capacity, k, at, later)
    case CreateJob(r) => AfterCreate(s, capacity, r, o.id, o.slug, at, later)
    case UpdateJob(id, e, user, isAdmin) => AfterUpdate(s, capacity, id, e, user, isAdmin, at, later)
    case DeleteJob(id, user, isAdmin) => AfterDelete(s, id, user, isAdmin)
  }
}
