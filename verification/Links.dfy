/** A row of the links table, what makes it end, and the key it is cached under. */
module Links {
  import opened Wrappers

  datatype Variant = Variant(name: string, targetUrl: string, weight: int, clickCount: int)

  datatype Link = Link(
    id: string,
    slug: string,
    domain: string, // "" is the default public host
    targetUrl: string,
    originalUrl: string,
    title: string,
    folderId: Option<string>,
    tags: seq<string>,
    pinHash: string, // "" means no PIN
    redirectType: int,
    expiresAt: Option<int>,
    maxClicks: Option<int>,
    clickCount: int,
    lastClickedAt: Option<int>,
    createdBy: string,
    isActive: bool,
    iosUrl: string,
    androidUrl: string,
    localeRouting: map<string, string>,
    variants: seq<Variant>,
    createdAt: int,
    updatedAt: int)
  {
    predicate HasPin() {
      pinHash != ""
    }

    predicate PastDate(now: int) {
      expiresAt.Some? && expiresAt.value > 0 && now >= expiresAt.value
    }

    predicate BudgetSpent() {
      maxClicks.Some? && maxClicks.value > 0 && clickCount >= maxClicks.value
    }

    predicate IsExpired(now: int) {
      if !isActive then true
      else if PastDate(now) then true
      else BudgetSpent()
    }
  }

  const BLANK := Link("", "", "", "", "", "", None, [], "", 302, None, None, 0, None, "", true, "", "", map[], [], 0, 0)

  datatype Reason = Deactivated | PastItsDate | SelfDestructed | NoReason

  function ExpiryReason(l: Link, now: int): Reason {
    if !l.isActive then Deactivated
    else if l.PastDate(now) then PastItsDate
    else if l.BudgetSpent() then SelfDestructed
    else NoReason
  }

  // ---------- the columns an owner edits, and those a click writes ----------

  /** A parsed update request. Cleaning its URLs, hashing its PIN and finding its folder happen
      elsewhere; `accepted` says whether they went well. */
  datatype Edit = Edit(
    accepted: bool,
    targetUrl: Option<string>,
    title: Option<string>,
    folderId: Option<Option<string>>,
    tags: Option<seq<string>>,
    pinHash: Option<string>,
    expiresInHours: Option<int>,
    expiresAt: Option<int>,
    maxClicks: Option<int>,
    redirectType: Option<int>,
    isActive: Option<bool>,
    iosUrl: Option<string>,
    androidUrl: Option<string>,
    localeRouting: Option<map<string, string>>,
    variants: Option<seq<Variant>>)

  function Or<T>(change: Option<T>, current: T): T {
    if change.Some? then change.value else current
  }

  function PositiveOnly(n: int): Option<int> {
    if n > 0 then Some(n) else None
  }

  /** The edited copy of a link, or nothing when the request is refused. */
  function Edited(l: Link, e: Edit, now: int): Option<Link> {
    if !e.accepted || (e.redirectType.Some? && e.redirectType.value != 301 && e.redirectType.value != 302) then None
    else Some(l.(
      targetUrl := Or(e.targetUrl, l.targetUrl),
      title := Or(e.title, l.title),
      folderId := Or(e.folderId, l.folderId),
      tags := Or(e.tags, l.tags),
      pinHash := Or(e.pinHash, l.pinHash),
      expiresAt :=
        if e.expiresInHours.Some? then
          (if e.expiresInHours.value > 0 then Some(now + e.expiresInHours.value * 3600) else None)
        else if e.expiresAt.Some? then PositiveOnly(e.expiresAt.value)
        else l.expiresAt,
      maxClicks := if e.maxClicks.Some? then PositiveOnly(e.maxClicks.value) else l.maxClicks,
      redirectType := Or(e.redirectType, l.redirectType),
      isActive := Or(e.isActive, l.isActive),
      iosUrl := Or(e.iosUrl, l.iosUrl),
      androidUrl := Or(e.androidUrl, l.androidUrl),
      localeRouting := Or(e.localeRouting, l.localeRouting),
      variants := Or(e.variants, l.variants),
      updatedAt := now))
  }

  /** The UPDATE statement: the listed columns are written, the click counter and its date are not. */
  function WriteColumns(row: Link, l: Link): Link {
    row.(
      targetUrl := l.targetUrl,
      title := l.title,
      folderId := l.folderId,
      tags := l.tags,
      pinHash := l.pinHash,
      expiresAt := l.expiresAt,
      maxClicks := l.maxClicks,
      isActive := l.isActive,
      iosUrl := l.iosUrl,
      androidUrl := l.androidUrl,
      localeRouting := l.localeRouting,
      variants := l.variants,
      redirectType := l.redirectType,
      updatedAt := l.updatedAt)
  }

  /** Adds one click to the first variant of that name. */
  function CountVariant(vs: seq<Variant>, name: string): (r: seq<Variant>)
    ensures |r| == |vs|
  {
    if vs == [] then []
    else if vs[0].name == name then [vs[0].(clickCount := vs[0].clickCount + 1)] + vs[1..]
    else [vs[0]] + CountVariant(vs[1..], name)
  }

  /** Counting a click on a variant: nothing happens before the first variant of that name. */
  lemma {:induction false} FirstIsCounted(vs: seq<Variant>, name: string, i: nat)
    requires i <= |vs| && (forall j :: 0 <= j < i ==> vs[j].name != name) && (i < |vs| ==> vs[i].name == name)
    ensures CountVariant(vs, name) == if i < |vs| then vs[i := vs[i].(clickCount := vs[i].clickCount + 1)] else vs
  {
    if i > 0 {
      FirstIsCounted(vs[1..], name, i - 1);
      assert vs == [vs[0]] + vs[1..];
    } else if vs != [] {
      assert vs[0 := vs[0].(clickCount := vs[0].clickCount + 1)]
        == [vs[0].(clickCount := vs[0].clickCount + 1)] + vs[1..];
    }
  }

  /** Equal but for the two columns that other services may write at any time. */
  predicate Same(a: Link, b: Link) {
    a.(folderId := b.folderId, createdBy := b.createdBy) == b
  }

  /** Writing an edited copy back makes the row that copy, owner apart: no edit is lost, and what the
      edit does not mention keeps its value. */
  lemma WritingAnEditStoresIt(l: Link, e: Edit, now: int)
    ensures Edited(l, e, now).Some? ==>
              var r := Edited(l, e, now).value;
              r.id == l.id && r.domain == l.domain && r.slug == l.slug && WriteColumns(l, r) == r
  {
  }

  /** The request that asks for every editable column of a link; zero asks for no limit. */
  function FullEdit(l: Link): Edit {
    Edit(true, Some(l.targetUrl), Some(l.title), Some(l.folderId), Some(l.tags), Some(l.pinHash),
         None, Some(Or(l.expiresAt, 0)), Some(Or(l.maxClicks, 0)), Some(l.redirectType), Some(l.isActive),
         Some(l.iosUrl), Some(l.androidUrl), Some(l.localeRouting), Some(l.variants))
  }

  /** What the server itself stores: positive limits or none, and one of the two redirect types. */
  predicate WellStored(l: Link) {
    && (l.expiresAt.Some? ==> l.expiresAt.value > 0) && (l.maxClicks.Some? ==> l.maxClicks.value > 0)
    && (l.redirectType == 301 || l.redirectType == 302)
  }

  /** A column is what the request names, and as it was where the request does not mention it. */
  predicate AsNamed<T(==)>(named: Option<T>, before: T, after: T) {
    match named
    case Some(value) => after == value
    case None => after == before
  }

  /** So is a limit, but one that is not positive is none. */
  predicate AsLimited(named: Option<int>, before: Option<int>, after: Option<int>) {
    match named
    case Some(limit) => if limit > 0 then after == Some(limit) else after == None
    case None => after == before
  }

  /** Hours count from now, and before a date. */
  predicate AsDated(hours: Option<int>, date: Option<int>, before: Option<int>, after: Option<int>, now: int) {
    match hours
    case Some(h) => if h > 0 then after == Some(now + 3600 * h) else after == None
    case None => AsLimited(date, before, after)
  }

  /** What an edit may do to a row: each column is as the request has it, and the others are as they were. */
  predicate DoneAsAsked(e: Edit, before: Link, after: Link, now: int) {
    && AsNamed(e.targetUrl, before.targetUrl, after.targetUrl) && AsNamed(e.title, before.title, after.title)
    && AsNamed(e.folderId, before.folderId, after.folderId) && AsNamed(e.tags, before.tags, after.tags)
    && AsNamed(e.pinHash, before.pinHash, after.pinHash)
    && AsDated(e.expiresInHours, e.expiresAt, before.expiresAt, after.expiresAt, now)
    && AsLimited(e.maxClicks, before.maxClicks, after.maxClicks)
    && AsNamed(e.redirectType, before.redirectType, after.redirectType)
    && AsNamed(e.isActive, before.isActive, after.isActive)
    && AsNamed(e.iosUrl, before.iosUrl, after.iosUrl) && AsNamed(e.androidUrl, before.androidUrl, after.androidUrl)
    && AsNamed(e.localeRouting, before.localeRouting, after.localeRouting)
    && AsNamed(e.variants, before.variants, after.variants)
    && after.updatedAt == now && Unedited(before, after)
  }

  /** The columns no edit writes. */
  predicate Unedited(a: Link, b: Link) {
    && a.id == b.id && a.slug == b.slug && a.domain == b.domain && a.originalUrl == b.originalUrl
    && a.clickCount == b.clickCount && a.lastClickedAt == b.lastClickedAt && a.createdBy == b.createdBy
    && a.createdAt == b.createdAt
  }

  /** Whatever a request names and leaves out: it is refused exactly when something in it is not acceptable or its
      redirect type is neither of the two, and otherwise done as asked. */
  lemma EditsAreDoneAsAsked(l: Link, e: Edit, now: int)
    ensures Edited(l, e, now).None? <==> !e.accepted || (e.redirectType.Some? && e.redirectType.value !in {301, 302})
    ensures Edited(l, e, now).Some? ==> DoneAsAsked(e, l, Edited(l, e, now).value, now)
  {
  }

  /** Asking on one link for the columns of another gives it exactly those, and what is stored stays well
      stored; asking for its own changes nothing but the time of the update. */
  lemma AskedColumnsAreStored(l: Link, other: Link, now: int)
    requires WellStored(other)
    ensures Edited(l, FullEdit(other), now) == Some(WriteColumns(l, other.(updatedAt := now)))
    ensures WellStored(l) ==> Edited(l, FullEdit(l), now) == Some(l.(updatedAt := now))
  {
    assert Or(other.expiresAt, 0) > 0 <==> other.expiresAt.Some?;
    assert Or(other.maxClicks, 0) > 0 <==> other.maxClicks.Some?;
  }

  /** A link has ended when it is switched off, from the second of its date on, or with the click that spends its
      budget; a date or a budget that is not positive is none. The first of these that holds is the reason given. */
  lemma EndedExactly(l: Link, now: int)
    ensures l.IsExpired(now) <==>
              || !l.isActive
              || (exists date :: l.expiresAt == Some(date) && 0 < date <= now)
              || (exists budget :: l.maxClicks == Some(budget) && 0 < budget <= l.clickCount)
    ensures match ExpiryReason(l, now)
            case Deactivated => !l.isActive
            case PastItsDate => l.isActive && exists date :: l.expiresAt == Some(date) && 0 < date <= now
            case SelfDestructed =>
              && l.isActive
              && (forall date :: l.expiresAt == Some(date) && 0 < date ==> now < date)
              && exists budget :: l.maxClicks == Some(budget) && 0 < budget <= l.clickCount
            case NoReason => !l.IsExpired(now)
  {
  }

  /** An ended link stays ended as time passes and clicks come in, and has a reason exactly when it has ended. */
  lemma EndedStaysEnded(l: Link, now: int, later: int, clicks: int)
    requires now <= later && l.clickCount <= clicks
    ensures l.IsExpired(now) ==> l.(clickCount := clicks).IsExpired(later)
    ensures ExpiryReason(l, now) != NoReason <==> l.IsExpired(now)
  {
  }

  lemma SameAfterTally(a: Link, b: Link, vs: seq<Variant>)
    requires Same(a, b)
    ensures Same(a.(variants := vs), b.(variants := vs))
  {
  }

  // ---------- what a request's text is stored as ----------

  predicate IsSpace(c: char) {
    || c in " \t\n\r\U{0B}\U{0C}\U{85}\U{A0}\U{1680}\U{2028}\U{2029}\U{202F}\U{205F}\U{3000}"
    || '\U{2000}' <= c <= '\U{200A}'
  }

  function TrimLeft(s: string): string {
    if s != "" && IsSpace(s[0]) then TrimLeft(s[1..]) else s
  }

  function TrimRight(s: string): string {
    if s != "" && IsSpace(s[|s| - 1]) then TrimRight(s[..|s| - 1]) else s
  }

  function Trim(s: string): string {
    TrimRight(TrimLeft(s))
  }

  predicate IsUpper(c: char) {
    'A' <= c <= 'Z'
  }

  function LowerChar(c: char): char {
    if IsUpper(c) then c - 'A' + 'a' else c
  }

  /** The lower case of a slug, whose letters are ASCII. */
  function LowerSlug(s: string): (r: string)
    ensures |r| == |s|
  {
    seq(|s|, i requires 0 <= i < |s| => LowerChar(s[i]))
  }

  const DOTTED_I := '\U{0130}'
  const KELVIN := '\U{212A}'

  /** What is used of Unicode's capitals: which are ASCII, that two others have ASCII small letters, and that
      none is a space. */
  ghost predicate AreCapitals(s: iset<char>) {
    && (forall c {:trigger IsUpper(c)} :: c < '\U{80}' ==> (c in s <==> IsUpper(c)))
    && (forall c {:trigger IsSpace(c)} :: IsSpace(c) ==> c !in s)
    && DOTTED_I in s && KELVIN in s
  }

  /** The program's own, of which nothing else is known here. */
  ghost function Capitals(): (s: iset<char>)
    ensures AreCapitals(s)
  {
    assert AreCapitals(iset c: char | IsUpper(c) || c == DOTTED_I || c == KELVIN);
    var s :| AreCapitals(s);
    s
  }

  /** Lower-casing replaces the capitals and nothing else, by letters that are none. */
  ghost predicate Lowers(f: char -> char) {
    && (forall c :: c !in Capitals() ==> f(c) == c)
    && (forall c :: c in Capitals() ==> f(c) !in Capitals() && !IsSpace(f(c)))
    && (forall c :: IsUpper(c) ==> f(c) == LowerChar(c))
    && f(DOTTED_I) == 'i' && f(KELVIN) == 'k'
  }

  ghost function PlainLower(c: char): char {
    if c !in Capitals() then c
    else if c == DOTTED_I then 'i'
    else if c == KELVIN then 'k'
    else if IsUpper(c) then LowerChar(c)
    else 'x'
  }

  lemma PlainLowers(c: char)
    ensures c !in Capitals() ==> PlainLower(c) == c
    ensures c in Capitals() ==> PlainLower(c) !in Capitals() && !IsSpace(PlainLower(c))
    ensures IsUpper(c) ==> PlainLower(c) == LowerChar(c)
    ensures PlainLower(DOTTED_I) == 'i' && PlainLower(KELVIN) == 'k'
  {
    assert !IsUpper(PlainLower(c));
  }

  ghost function Lowering(): (f: char -> char)
    ensures Lowers(f)
  {
    assert Lowers(PlainLower) by {
      forall c
        ensures if c in Capitals() then PlainLower(c) !in Capitals() && !IsSpace(PlainLower(c)) else PlainLower(c) == c
        ensures IsUpper(c) ==> PlainLower(c) == LowerChar(c)
      {
        PlainLowers(c);
      }
      PlainLowers('a');
    }
    var f :| Lowers(f);
    f
  }

  ghost function ToLower(s: string): (r: string)
    ensures |r| == |s|
  {
    seq(|s|, i requires 0 <= i < |s| => Lowering()(s[i]))
  }

  /** A domain as a link is stored under it: trimmed and in lower case. */
  ghost predicate Normal(domain: string) {
    && (domain != "" ==> !IsSpace(domain[0]) && !IsSpace(domain[|domain| - 1]))
    && forall i :: 0 <= i < |domain| ==> domain[i] !in Capitals()
  }

  lemma {:induction false} TrimLeftStops(s: string)
    ensures var r := TrimLeft(s); (r != "" ==> !IsSpace(r[0])) && (s != "" && !IsSpace(s[0]) ==> r == s)
  {
    if s != "" && IsSpace(s[0]) {
      TrimLeftStops(s[1..]);
    }
  }

  lemma {:induction false} TrimRightStops(s: string)
    ensures var r := TrimRight(s);
            r <= s && (r != "" ==> !IsSpace(r[|r| - 1])) && (s != "" && !IsSpace(s[|s| - 1]) ==> r == s)
  {
    if s != "" && IsSpace(s[|s| - 1]) {
      TrimRightStops(s[..|s| - 1]);
    }
  }

  lemma LowerKeepsSpace(s: string)
    ensures forall i :: 0 <= i < |s| ==>
              (IsSpace(ToLower(s)[i]) <==> IsSpace(s[i])) && ToLower(s)[i] !in Capitals()
  {
    var f := Lowering();
    forall i | 0 <= i < |s| ensures (IsSpace(f(s[i])) <==> IsSpace(s[i])) && f(s[i]) !in Capitals() {
      assert s[i] in Capitals() ==> !IsSpace(s[i]);
    }
  }

  lemma TrimmedIsNormal(raw: string)
    ensures Normal(ToLower(Trim(raw)))
  {
    TrimLeftStops(raw);
    TrimRightStops(TrimLeft(raw));
    LowerKeepsSpace(Trim(raw));
  }

  /** The domains a request can end up with are the normal ones. */
  lemma NormalExactly(domain: string)
    ensures Normal(domain) <==> exists raw :: ToLower(Trim(raw)) == domain
  {
    if Normal(domain) {
      TrimLeftStops(domain);
      TrimRightStops(domain);
      assert Trim(domain) == domain;
      assert forall i :: 0 <= i < |domain| ==> Lowering()(domain[i]) == domain[i];
      assert ToLower(domain) == domain;
    }
    forall raw | ToLower(Trim(raw)) == domain ensures Normal(domain) {
      TrimmedIsNormal(raw);
    }
  }

  predicate SlugChar(c: char) {
    'a' <= c <= 'z' || IsUpper(c) || '0' <= c <= '9' || c == '_' || c == '-'
  }

  predicate Listed(word: string, words: seq<string>) {
    words != [] && (words[0] == word || Listed(word, words[1..]))
  }

  const RESERVED := [
    "api", "auth", "preview", "pin", "static", "assets", "dashboard", "settings", "health", "healthz",
    "favicon.ico", "robots.txt", "login", "logout", "admin"]

  /** What a custom slug must satisfy, and every stored one does. */
  predicate Storable(slug: string) {
    && 2 <= |slug| <= 64 && (forall i :: 0 <= i < |slug| ==> SlugChar(slug[i]))
    && !Listed(LowerSlug(slug), RESERVED)
  }

  /** The slug spells the word, in whatever case. */
  predicate SpellsInAnyCase(slug: string, word: string) {
    && |slug| == |word|
    && forall i :: 0 <= i < |slug| ==>
         if 65 <= slug[i] as int <= 90 then word[i] as int == slug[i] as int + 32 else word[i] == slug[i]
  }

  /** A slug can be stored exactly when it is 2 to 64 letters, digits, underscores and hyphens, by their codes, and
      spells no reserved word in any case. */
  lemma StorableExactly(slug: string)
    ensures Storable(slug) <==>
              && 2 <= |slug| <= 64
              && (forall i :: 0 <= i < |slug| ==>
                    var n := slug[i] as int; 48 <= n <= 57 || 65 <= n <= 90 || 97 <= n <= 122 || n == 95 || n == 45)
              && forall k :: 0 <= k < |RESERVED| ==> !SpellsInAnyCase(slug, RESERVED[k])
  {
    forall word ensures SpellsInAnyCase(slug, word) <==> LowerSlug(slug) == word {
      LowerSpells(slug, word);
    }
    ListedExactly(LowerSlug(slug), RESERVED);
    assert forall i :: 0 <= i < |slug| ==>
      var n := slug[i] as int;
      SlugChar(slug[i]) <==> 48 <= n <= 57 || 65 <= n <= 90 || 97 <= n <= 122 || n == 95 || n == 45;
  }

  lemma LowerSpells(slug: string, word: string)
    ensures SpellsInAnyCase(slug, word) <==> LowerSlug(slug) == word
  {
    var lower := LowerSlug(slug);
    if SpellsInAnyCase(slug, word) {
      assert forall i :: 0 <= i < |slug| ==> lower[i] == LowerChar(slug[i]) == word[i];
    }
  }

  lemma {:induction false} ListedExactly(word: string, words: seq<string>)
    ensures Listed(word, words) <==> exists k :: 0 <= k < |words| && words[k] == word
  {
    if words != [] {
      ListedExactly(word, words[1..]);
      if k :| 0 <= k < |words| && words[k] == word {
        assert k == 0 || words[1..][k - 1] == word;
      }
      if k :| 0 <= k < |words[1..]| && words[1..][k] == word {
        assert words[k + 1] == word;
      }
    }
  }

  /** The characters slugs are generated from: no 0, 1, l, I, o, O or i. */
  predicate Legible(c: char) {
    '2' <= c <= '9' || ('a' <= c <= 'z' && c !in "ilo") || ('A' <= c <= 'Z' && c !in "IO")
  }

  /** Six characters are drawn until they are not reserved, or eight after ten collisions. */
  predicate Generated(slug: string) {
    && (|slug| == 6 || |slug| == 8) && (forall i :: 0 <= i < |slug| ==> Legible(slug[i]))
    && (|slug| == 6 ==> !Listed(LowerSlug(slug), RESERVED))
  }

  /** The one reserved word of eight letters is "settings". */
  lemma EightHaveAnI(word: string)
    requires |word| == 8 && Listed(word, RESERVED)
    ensures word[4] == 'i'
  {
    ListedExactly(word, RESERVED);
    assert word == "settings";
  }

  lemma LegibleIsNoI(slug: string, i: nat)
    requires i < |slug| && Legible(slug[i])
    ensures LowerSlug(slug)[i] != 'i'
  {
  }

  lemma LegibleIsSlugChar(c: char)
    requires Legible(c)
    ensures SlugChar(c)
  {
  }

  /** Eight legible characters spell no reserved word. */
  lemma GeneratedIsStorable(slug: string)
    requires Generated(slug)
    ensures Storable(slug)
  {
    forall i | 0 <= i < |slug| ensures SlugChar(slug[i]) {
      LegibleIsSlugChar(slug[i]);
    }
    if |slug| == 8 {
      LegibleIsNoI(slug, 4);
      if Listed(LowerSlug(slug), RESERVED) {
        EightHaveAnI(LowerSlug(slug));
      }
    }
  }

  function FormatCacheKey(domain: string, slug: string): string {
    if domain == "" then slug else domain + ":" + slug
  }
}
