/** The link service as any number of goroutines run it: one read-write lock, the links table and
    the cache, with every statement and every cache call a step of its own. */
module LinkStore {
  import opened Wrappers
  import opened Links
  import opened LinkKeys
  import C = CacheModel
  import T = Texts

  type Positive = n: int | n > 0 witness 1

  /** As NewLinkCache leaves them: defaults stand in for what is not positive. */
  datatype Config = Config(capacity: Positive, ttl: Positive)

  type Tid = nat

  datatype Click = Click(id: string, domain: string, slug: string, variant: string)

  datatype CreateRequest = CreateRequest(
    accepted: bool, // URLs clean, destination not blocked, PIN hashed
    domain: string, // trimmed and lower-cased
    customSlug: string, // trimmed; "" asks for a generated one
    hours: Option<int>, // to live, if the request names no date
    fields: Link) // the remaining columns as the request asks for them

  datatype Job =
    | ClickJob(click: Click)
    | CreateJob(request: CreateRequest)
    | UpdateJob(id: string, edit: Edit, user: string, isAdmin: bool)
    | DeleteJob(id: string, user: string, isAdmin: bool)

  /** What Resolve returns: the link, the link with an error because it has ended, or an error alone. */
  datatype Answer = Found(link: Link) | Ended(link: Link) | Missing

  datatype Pc =
    // Resolve, and the redirect handler that called it
    | Asking(domain: string, slug: string) // waiting for the read lock
    | Looking(domain: string, slug: string) // about to ask the cache
    | Judging(domain: string, slug: string, link: Link, cached: bool) // about to test IsExpired
    | Dropping(domain: string, slug: string, link: Link, at: int) // about to delete an ended link from the cache
    | Reading(domain: string, slug: string) // about to query the table
    | ReadingRoot(domain: string, slug: string) // about to query it for the root domain
    | Publishing(domain: string, slug: string, link: Link, at: int) // about to cache the row
    | Answered(domain: string, slug: string, answer: Answer, at: int) // about to give the read lock back
    | Holding(link: Link, slug: string, viaPin: bool) // the handler has a live link in hand
    // the write-locked operations
    | Waiting(job: Job) // waiting for the write lock
    | Locked(job: Job)
    | Counted(click: Click) // click_count written
    | Reread(click: Click, link: Link) // row read back
    | Tallied(click: Click, link: Link) // variant counted
    | Chosen(link: Link) // new row composed
    | Inserted(link: Link)
    | Loaded(link: Link, edit: Edit) // edited copy composed, as the request asks
    | Written(link: Link)
    | Doomed(link: Link) // row to delete read
    | Removed(link: Link)
    | Leaving // about to give the write lock back

  /** The budget and the clicks in flight when a live link was last handed out. */
  datatype Grant = Grant(budget: Option<int>, inFlight: nat)

  datatype State = State(
    now: int,
    links: map<string, Link>,
    cache: seq<C.Entry>,
    readers: set<Tid>,
    writer: Option<Tid>,
    threads: map<Tid, Pc>,
    // history: the address each id was created with, the clicks issued for it, its last grant
    born: map<string, (string, string)>,
    issued: map<string, nat>,
    grants: map<string, Grant>)

  /** What the scheduler and the outside world decide in a step. */
  datatype Oracle = Oracle(id: string, slug: string, variant: string, ok: bool)

  datatype Event =
    | Tick(elapsed: nat)
    | FolderDeleted(folder: string) // outside the lock: its links go back to no folder
    | OwnerAdopted(former: string, subject: string) // outside the lock: rows change owner
    | Arrive(t: Tid, pc: Pc)
    | VerifyPin(t: Tid, domain: string, slug: string) // the PIN page reads the table without the lock
    | Go(t: Tid, oracle: Oracle)

  // ---------- queries ----------

  predicate At(l: Link, domain: string, slug: string) {
    l.domain == domain && l.slug == slug
  }

  predicate Exists(links: map<string, Link>, domain: string, slug: string) {
    exists id :: id in links && At(links[id], domain, slug)
  }

  /** The row at an address; the unique index makes it the only one. */
  ghost function RowAt(links: map<string, Link>, domain: string, slug: string): Link
    requires Exists(links, domain, slug)
  {
    var id :| id in links && At(links[id], domain, slug);
    links[id]
  }

  /** GetBySlugRaw: of the rows with that slug at the domain or at the root, one whose domain is
      greatest in byte order, which is how SQLite compares text. */
  predicate IsRaw(links: map<string, Link>, domain: string, slug: string, id: string) {
    && id in links && links[id].slug == slug && (links[id].domain == domain || links[id].domain == "")
    && forall j :: j in links && links[j].slug == slug && (links[j].domain == domain || links[j].domain == "") ==>
                     T.AtMost(links[j].domain, links[id].domain)
  }

  ghost function Raw(links: map<string, Link>, domain: string, slug: string): Option<Link> {
    if exists id :: IsRaw(links, domain, slug, id) then
      var id :| IsRaw(links, domain, slug, id);
      Some(links[id])
    else None
  }

  // ---------- in-flight clicks ----------

  predicate IsPending(pc: Pc, id: string) {
    (pc.Waiting? || pc.Locked?) && pc.job.ClickJob? && pc.job.click.id == id
  }

  predicate IsHeld(pc: Pc, id: string) {
    pc.Holding? && pc.link.id == id
  }

  ghost function Pending(threads: map<Tid, Pc>, id: string): set<Tid> {
    set t | t in threads && IsPending(threads[t], id)
  }

  ghost function Held(threads: map<Tid, Pc>, id: string): set<Tid> {
    set t | t in threads && IsHeld(threads[t], id)
  }

  ghost function InFlight(threads: map<Tid, Pc>, id: string): nat {
    |Pending(threads, id)| + |Held(threads, id)|
  }

  // ---------- steps ----------

  ghost function Init(now: int): State {
    State(now, map[], [], {}, None, map[], map[], map[], map[])
  }

  function Issued(s: State, id: string): nat {
    if id in s.issued then s.issued[id] else 0
  }

  /** A live link goes out to the handler of thread t. */
  ghost function Granted(s: State, t: Tid, l: Link, slug: string, viaPin: bool): State {
    s.(threads := s.threads[t := Holding(l, slug, viaPin)],
       grants := s.grants[l.id := Grant(l.maxClicks, InFlight(s.threads - {t}, l.id))])
  }

  /** The row of a request: untitled links are titled by their slug, and hours count where no date is given. */
  function Compose(id: string, slug: string, r: CreateRequest, now: int): Link {
    var f := r.fields;
    f.(id := id, slug := slug, domain := r.domain, clickCount := 0, lastClickedAt := None,
       title := if f.title == "" then slug else f.title,
       expiresAt :=
         if f.expiresAt.Some? && f.expiresAt.value > 0 then f.expiresAt
         else if r.hours.Some? && r.hours.value > 0 then Some(now + r.hours.value * 3600)
         else None,
       redirectType := if f.redirectType == 301 then 301 else 302,
       isActive := true, createdAt := now, updatedAt := now)
  }

  /** The counter statement of a click. */
  function ClickedOnce(row: Link, now: int): Link {
    row.(clickCount := row.clickCount + 1, lastClickedAt := Some(now))
  }

  /** The first statement of a write-locked operation. */
  ghost function Begin(s: State, t: Tid, job: Job, o: Oracle): State {
    match job
    case ClickJob(k) =>
      s.(links := if k.id in s.links then s.links[k.id := ClickedOnce(s.links[k.id], s.now)] else s.links,
         threads := s.threads[t := Counted(k)])
    case CreateJob(r) =>
      var slug := if r.customSlug != "" then r.customSlug else o.slug;
      var refused := !r.accepted || (r.customSlug != "" && (!Storable(slug) || Exists(s.links, r.domain, slug)));
      s.(threads := s.threads[t := if refused then Leaving else Chosen(Compose(o.id, slug, r, s.now))])
    case UpdateJob(id, e, user, isAdmin) =>
      var refused := id !in s.links || (!isAdmin && s.links[id].createdBy != user)
        || Edited(s.links[id], e, s.now).None?;
      s.(threads := s.threads[t := if refused then Leaving else Loaded(Edited(s.links[id], e, s.now).value, e)])
    case DeleteJob(id, user, isAdmin) =>
      var refused := id !in s.links || (!isAdmin && s.links[id].createdBy != user);
      s.(threads := s.threads[t := if refused then Leaving else Doomed(s.links[id])])
  }

  predicate IsReader(pc: Pc) {
    pc.Looking? || pc.Judging? || pc.Dropping? || pc.Reading? || pc.ReadingRoot? || pc.Publishing? || pc.Answered?
  }

  predicate IsWriter(pc: Pc) {
    pc.Locked? || pc.Counted? || pc.Reread? || pc.Tallied? || pc.Chosen? || pc.Inserted? || pc.Loaded? ||
    pc.Written? || pc.Doomed? || pc.Removed? || pc.Leaving?
  }

  /** A step of Resolve under the read lock, up to and including the unlock. */
  ghost function ReaderStep(c: Config, s: State, t: Tid): State
    requires t in s.threads && IsReader(s.threads[t])
  {
    match s.threads[t]
    case Looking(d, g) =>
      var r := C.Get(s.cache, c.ttl, s.now, d, g);
      s.(cache := r.list,
         threads := s.threads[t := if r.hit.Some? then Judging(d, g, r.hit.value, true) else Reading(d, g)])
    case Judging(d, g, l, cached) =>
      s.(threads := s.threads[t :=
           if l.IsExpired(s.now) then
             if cached then Dropping(d, g, l, s.now) else Answered(d, g, Ended(l), s.now)
           else if cached then Answered(d, g, Found(l), s.now)
           else Publishing(d, g, l, s.now)])
    case Dropping(d, g, l, at) =>
      s.(cache := C.Delete(s.cache, d, g), threads := s.threads[t := Answered(d, g, Ended(l), at)])
    case Reading(d, g) =>
      s.(threads := s.threads[t :=
           if Raw(s.links, d, g).Some? then Judging(d, g, Raw(s.links, d, g).value, false)
           else if d != "" then ReadingRoot(d, g)
           else Answered(d, g, Missing, s.now)])
    case ReadingRoot(d, g) =>
      s.(threads := s.threads[t :=
           if Raw(s.links, "", g).Some? then Judging(d, g, Raw(s.links, "", g).value, false)
           else Answered(d, g, Missing, s.now)])
    case Publishing(d, g, l, at) =>
      s.(cache := C.Set(s.cache, c.capacity, s.now, l.domain, l.slug, l),
         threads := s.threads[t := Answered(d, g, Found(l), at)])
    case Answered(d, g, answer, _) =>
      var u := s.(readers := s.readers - {t});
      if answer.Found? then Granted(u, t, answer.link, g, false) else u.(threads := u.threads - {t})
  }

  /** A step of a write-locked operation, up to and including the unlock. */
  ghost function WriterStep(c: Config, s: State, t: Tid, o: Oracle): State
    requires t in s.threads && IsWriter(s.threads[t])
  {
    match s.threads[t]
    case Locked(job) => Begin(s, t, job, o)
    case Counted(k) =>
      s.(threads := s.threads[t := if k.id in s.links then Reread(k, s.links[k.id]) else Leaving])
    case Reread(k, l) =>
      if k.variant != "" && l.variants != [] then
        var vs := CountVariant(l.variants, k.variant);
        s.(links := if k.id in s.links then s.links[k.id := s.links[k.id].(variants := vs)] else s.links,
           threads := s.threads[t := Tallied(k, l.(variants := vs))])
      else s.(threads := s.threads[t := Tallied(k, l)])
    case Tallied(k, l) =>
      s.(cache := if l.IsExpired(s.now) then C.Delete(s.cache, k.domain, k.slug)
                  else C.Set(s.cache, c.capacity, s.now, k.domain, k.slug, l),
         threads := s.threads[t := Leaving])
    case Chosen(l) =>
      if Exists(s.links, l.domain, l.slug) then s.(threads := s.threads[t := Leaving]) // the unique index refuses
      else s.(links := s.links[l.id := l], born := s.born[l.id := (l.domain, l.slug)],
              threads := s.threads[t := Inserted(l)])
    case Inserted(l) => Publish(c, s, t, l)
    case Loaded(l, _) =>
      s.(links := if l.id in s.links then s.links[l.id := WriteColumns(s.links[l.id], l)] else s.links,
         threads := s.threads[t := Written(l)])
    case Written(l) => Publish(c, s, t, l)
    case Doomed(l) => s.(links := s.links - {l.id}, threads := s.threads[t := Removed(l)])
    case Removed(l) => s.(cache := C.Delete(s.cache, l.domain, l.slug), threads := s.threads[t := Leaving])
    case Leaving => s.(writer := None, threads := s.threads - {t})
  }

  ghost function Publish(c: Config, s: State, t: Tid, l: Link): State {
    s.(cache := C.Set(s.cache, c.capacity, s.now, l.domain, l.slug, l), threads := s.threads[t := Leaving])
  }

  /** Taking a lock, or what the handler does with the link it holds. */
  ghost function FreeStep(s: State, t: Tid, o: Oracle): State
    requires t in s.threads && !IsReader(s.threads[t]) && !IsWriter(s.threads[t])
  {
    match s.threads[t]
    case Asking(d, g) => s.(readers := s.readers + {t}, threads := s.threads[t := Looking(d, g)])
    case Waiting(job) => s.(writer := Some(t), threads := s.threads[t := Locked(job)])
    case Holding(l, g, _) =>
      if o.ok then // redirect, and spawn the click
        s.(threads := s.threads[t := Waiting(ClickJob(Click(l.id, l.domain, g, o.variant)))],
           issued := s.issued[l.id := Issued(s, l.id) + 1])
      else s.(threads := s.threads - {t}) // ended meanwhile, PIN page, or wrong PIN
  }

  ghost predicate Enabled(s: State, e: Event) {
    match e
    case Tick(_) => true
    case FolderDeleted(_) => true
    case OwnerAdopted(_, _) => true
    case Arrive(t, pc) =>
      && t !in s.threads && (pc.Asking? || (pc.Waiting? && !pc.job.ClickJob?))
      && (pc.Waiting? && pc.job.CreateJob? ==> Normal(pc.job.request.domain))
    case VerifyPin(t, _, _) => t !in s.threads
    case Go(t, o) =>
      && t in s.threads
      && var pc := s.threads[t];
      && (pc.Asking? ==> s.writer.None?)
      && (pc.Waiting? ==> s.writer.None? && s.readers == {})
      && (pc.Holding? && o.ok ==>
            if pc.viaPin then pc.link.HasPin() else !pc.link.IsExpired(s.now) && !pc.link.HasPin())
      && (pc.Locked? && pc.job.CreateJob? ==> o.id !in s.born && Generated(o.slug)) // fresh UUID
  }

  ghost function Apply(c: Config, s: State, e: Event): State
    requires Enabled(s, e)
  {
    match e
    case Tick(n) => s.(now := s.now + n)
    case FolderDeleted(f) =>
      s.(links := map id | id in s.links ::
           if s.links[id].folderId == Some(f) then s.links[id].(folderId := None) else s.links[id])
    case OwnerAdopted(former, subject) =>
      s.(links := map id | id in s.links ::
           if s.links[id].createdBy == former then s.links[id].(createdBy := subject) else s.links[id])
    case Arrive(t, pc) => s.(threads := s.threads[t := pc])
    case VerifyPin(t, d, g) =>
      if Raw(s.links, d, g).Some? && !Raw(s.links, d, g).value.IsExpired(s.now)
      then Granted(s, t, Raw(s.links, d, g).value, g, true)
      else s
    case Go(t, o) =>
      if IsReader(s.threads[t]) then ReaderStep(c, s, t)
      else if IsWriter(s.threads[t]) then WriterStep(c, s, t, o)
      else FreeStep(s, t, o)
  }

  // ---------- runs ----------

  ghost predicate Possible(c: Config, start: int, es: seq<Event>)
    decreases |es|, 0
  {
    es == [] || (Possible(c, start, es[..|es| - 1]) && Enabled(After(c, start, es[..|es| - 1]), es[|es| - 1]))
  }

  ghost function After(c: Config, start: int, es: seq<Event>): State
    requires Possible(c, start, es)
    decreases |es|, 1
  {
    if es == [] then Init(start)
    else Apply(c, After(c, start, es[..|es| - 1]), es[|es| - 1])
  }

  predicate IsLookup(e: Event) {
    e.Arrive? && e.pc.Asking?
  }

  /** The addresses a run looks up, whoever asks. */
  ghost function Asked(es: seq<Event>): iset<Address> {
    iset i | 0 <= i < |es| && IsLookup(es[i]) :: (es[i].pc.domain, es[i].pc.slug)
  }
}
