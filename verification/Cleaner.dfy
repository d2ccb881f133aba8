/** The tracker cleaner, as the server runs it on a query string and as the front page runs it on decoded pairs. */
module Cleaner {
  import opened Texts
  import opened QueryCodec

  const SEARCH_TRACKERS: set<string> := {
    "utm_source", "utm_medium", "utm_campaign", "utm_term", "utm_content", "utm_id", "utm_source_platform",
    "utm_creative_format", "utm_marketing_tactic", "utm_reader", "utm_name", "utm_cid", "utm_viz_id",
    "utm_pubreferrer", "utm_swu", "gclid", "gclsrc", "dclid", "gad_source", "gbraid", "wbraid", "_ga",
    "_gl"
  }

  const SOCIAL_TRACKERS: set<string> := {
    "fbclid", "fbadid", "fb_action_ids", "fb_action_types", "fb_source", "fb_ref", "action_object_map",
    "igshid", "msclkid", "twclid", "ttclid", "li_fat_id", "epik", "yclid", "ym_debug", "_openstat"
  }

  const MAILING_TRACKERS: set<string> := {
    "mc_cid", "mc_eid", "_hsenc", "_hsmi", "hsa_cam", "hsa_grp", "hsa_mt", "hsa_src", "hsa_ad", "hsa_acc", "hsa_net",
    "hsa_kw", "hsa_tgt", "hsa_ol", "mkt_tok", "vero_id", "vero_conv", "_kx", "wickedid", "si", "feature"
  }

  const KNOWN_TRACKER_PARAMS := SEARCH_TRACKERS + SOCIAL_TRACKERS + MAILING_TRACKERS

  const DOTTED_I: Text := "\U{C4}\U{B0}" // U+0130 in UTF-8
  const KELVIN: Text := "\U{E2}\U{84}\U{AA}" // U+212A

  function LowerByte(c: Byte): Byte {
    if 'A' <= c <= 'Z' then c - 'A' + 'a' else c
  }

  /** The lower case of a text in UTF-8, as far as a tracker can tell. Beside the ASCII letters only the Kelvin
      sign and the dotted capital I become ASCII letters, the latter as the program has it; all others stay
      beyond ASCII and are left as they are. */
  function Fold(s: Text, dotted: Text): Text {
    if s == [] then []
    else if DOTTED_I <= s then dotted + Fold(s[2..], dotted)
    else if KELVIN <= s then "k" + Fold(s[3..], dotted)
    else [LowerByte(s[0])] + Fold(s[1..], dotted)
  }

  /** strings.ToLower takes the dotted capital I to a plain i. */
  function ServerLower(s: Text): Text {
    Fold(s, "i")
  }

  /** toLowerCase takes it to an i and a combining dot, U+0307. */
  function PageLower(s: Text): Text {
    Fold(s, "i\U{CC}\U{87}")
  }

  predicate HasTrackerPrefix(key: string) {
    "utm_" <= key || "hsa_" <= key || "ref_" <= key || "pf_rd_" <= key || "pd_rd_" <= key
  }

  predicate IsTrackerParam(key: string) {
    key in KNOWN_TRACKER_PARAMS || HasTrackerPrefix(key)
  }

  /** What the server takes for a tracker. */
  predicate Tracker(key: Text) {
    IsTrackerParam(ServerLower(key))
  }

  /** The keys of a query that answer a description, and what is left without them. */
  function StrippedBy(m: Params, out: Text -> bool): set<Text> {
    set key | key in m && out(key)
  }

  function SurvivingBy(m: Params, out: Text -> bool): Params {
    m - StrippedBy(m, out)
  }

  function CleanedBy(raw: Text, out: Text -> bool): Text {
    Encode(SurvivingBy(Parse(raw), out))
  }

  function CleanedQuery(raw: Text): Text {
    CleanedBy(raw, Tracker)
  }

  function RemovedFrom(raw: Text): seq<Text> {
    SortedKeys(StrippedBy(Parse(raw), Tracker))
  }

  /** The query half of CleanURL: the map's keys come in no particular order. */
  method CleanQuery(raw: Text) returns (clean: Text, removed: seq<Text>)
    ensures clean == CleanedQuery(raw) && removed == RemovedFrom(raw)
  {
    var params := Parse(raw);
    ghost var all := params;
    var pending := params.Keys;
    removed := [];
    while pending != {}
      invariant pending <= all.Keys
      invariant forall key :: key in removed <==> key in all && key !in pending && Tracker(key)
      invariant forall i, j :: 0 <= i < j < |removed| ==> removed[i] != removed[j]
      invariant params == all - set key | key in removed
      decreases pending
    {
      var param :| param in pending;
      if IsTrackerParam(ServerLower(param)) {
        removed := removed + [param];
        params := params - {param};
      }
      pending := pending - {param};
    }
    assert (set key | key in removed) == StrippedBy(all, Tracker);
    SortIsSortedKeys(removed);
    removed := Sort(removed);
    clean := Encode(params);
  }

  // ---------- the front page's twin ----------

  const TRACKERS: set<string> :=
    {
      "utm_source", "utm_medium", "utm_campaign", "utm_term", "utm_content", "utm_id", "utm_source_platform",
      "utm_creative_format", "utm_marketing_tactic", "utm_reader", "utm_name", "utm_cid", "utm_viz_id",
      "utm_pubreferrer", "utm_swu", "gclid", "gclsrc", "dclid", "gad_source", "gbraid", "wbraid", "_ga",
      "_gl"
    } + {
      "fbclid", "fbadid", "fb_action_ids", "fb_action_types", "fb_source", "fb_ref", "action_object_map",
      "igshid", "msclkid", "twclid", "ttclid", "li_fat_id", "epik", "yclid", "ym_debug", "_openstat"
    } + {
      "mc_cid", "mc_eid", "_hsenc", "_hsmi", "hsa_cam", "hsa_grp", "hsa_mt", "hsa_src", "hsa_ad", "hsa_acc", "hsa_net",
      "hsa_kw", "hsa_tgt", "hsa_ol", "mkt_tok", "vero_id", "vero_conv", "_kx", "wickedid", "si", "feature"
    }

  const TRACKER_PREFIXES := ["utm_", "hsa_", "ref_", "pf_rd_", "pd_rd_"]

  /** What the page takes for one. */
  predicate IsTracker(k: Text) {
    var key := PageLower(k);
    key in TRACKERS || exists i :: 0 <= i < |TRACKER_PREFIXES| && TRACKER_PREFIXES[i] <= key
  }

  /** The pairs whose key does not answer a description. */
  function Filter(entries: seq<Pair>, out: Text -> bool): seq<Pair> {
    if entries == [] then []
    else
      var last := entries[|entries| - 1];
      Filter(entries[..|entries| - 1], out) + if out(last.key) then [] else [last]
  }

  function KeptPairs(entries: seq<Pair>): seq<Pair> {
    Filter(entries, IsTracker)
  }

  function KeysOf(entries: seq<Pair>, out: Text -> bool): set<Text> {
    set i | 0 <= i < |entries| && out(entries[i].key) :: entries[i].key
  }

  method CleanLocally(entries: seq<Pair>) returns (kept: seq<Pair>, stripped: seq<Text>)
    ensures kept == StableSort(KeptPairs(entries)) && stripped == SortedKeys(KeysOf(entries, IsTracker))
  {
    kept, stripped := [], [];
    for i := 0 to |entries|
      invariant kept == KeptPairs(entries[..i])
      invariant forall key :: key in stripped <==> key in KeysOf(entries[..i], IsTracker)
      invariant forall j, k :: 0 <= j < k < |stripped| ==> stripped[j] != stripped[k]
    {
      var k := entries[i].key;
      assert entries[..i + 1][..i] == entries[..i];
      OneMoreKey(entries, i, IsTracker);
      if IsTracker(k) {
        if k !in stripped {
          stripped := stripped + [k];
        }
      } else {
        kept := kept + [entries[i]];
      }
    }
    assert entries[..|entries|] == entries;
    SortIsSortedKeys(stripped);
    assert (set key | key in stripped) == KeysOf(entries, IsTracker);
    stripped := Sort(stripped);
    kept := StableSort(kept);
  }

  lemma OneMoreKey(entries: seq<Pair>, i: nat, out: Text -> bool)
    requires i < |entries|
    ensures KeysOf(entries[..i + 1], out)
            == KeysOf(entries[..i], out) + if out(entries[i].key) then {entries[i].key} else {}
  {
    var more, fewer := entries[..i + 1], entries[..i];
    forall key ensures key in KeysOf(more, out)
      <==> key in KeysOf(fewer, out) || (out(entries[i].key) && key == entries[i].key) {
      if j :| 0 <= j < |fewer| && out(fewer[j].key) && fewer[j].key == key {
        assert more[j].key == key;
      }
      if j :| 0 <= j < |more| && out(more[j].key) && more[j].key == key {
        assert j < i ==> fewer[j].key == key;
      }
      assert more[i] == entries[i];
    }
  }

  // ---------- what cleaning means ----------

  lemma ValuesOfLast(entries: seq<Pair>, key: Text)
    requires entries != []
    ensures var n := |entries| - 1;
            Values(entries, key) == Values(entries[..n], key) + if entries[n].key == key then [entries[n].value] else []
  {
    var n := |entries| - 1;
    ValuesOfConcat(entries[..n], [entries[n]], key);
    assert entries == entries[..n] + [entries[n]];
    assert [entries[n]][1..] == [];
  }

  lemma {:induction false} FilterValues(entries: seq<Pair>, out: Text -> bool, key: Text)
    ensures Values(Filter(entries, out), key) == if out(key) then [] else Values(entries, key)
  {
    if entries != [] {
      var n := |entries| - 1;
      FilterValues(entries[..n], out, key);
      ValuesOfLast(entries, key);
      var kept := Filter(entries, out);
      if out(entries[n].key) {
        assert kept == Filter(entries[..n], out);
      } else {
        assert kept[..|kept| - 1] == Filter(entries[..n], out) && kept[|kept| - 1] == entries[n];
        ValuesOfLast(kept, key);
      }
    }
  }

  lemma SurvivingValues(m: Params, out: Text -> bool, key: Text)
    ensures ValuesIn(SurvivingBy(m, out), key) == if out(key) then [] else ValuesIn(m, key)
  {
  }

  /** Grouping by key, deleting some keys and writing by sorted key is filtering and sorting stably, whichever
      keys are deleted. */
  lemma DeletingIsFiltering(entries: seq<Pair>, out: Text -> bool)
    ensures Listed(SurvivingBy(Group(entries), out)) == StableSort(Filter(entries, out))
    ensures StrippedBy(Group(entries), out) == KeysOf(entries, out)
  {
    var m := SurvivingBy(Group(entries), out);
    ListedIsByKey(m);
    StableSortIsStable(Filter(entries, out));
    forall key ensures Values(Listed(m), key) == Values(StableSort(Filter(entries, out)), key) {
      ListedValues(m, key);
      GroupHoldsValues(entries, key);
      SurvivingValues(Group(entries), out, key);
      FilterValues(entries, out, key);
    }
    ByKeyIsUnique(Listed(m), StableSort(Filter(entries, out)));
    forall key ensures key in StrippedBy(Group(entries), out) <==> key in KeysOf(entries, out) {
      GroupHoldsValues(entries, key);
      ValuesTellKeys(entries, key);
    }
  }

  // ---------- where the two differ ----------

  predicate HoldsDottedI(s: Text) {
    s != [] && (DOTTED_I <= s || HoldsDottedI(s[1..]))
  }

  lemma BehindKelvin(s: Text)
    requires KELVIN <= s
    ensures HoldsDottedI(s) <==> HoldsDottedI(s[3..])
  {
    var u, v := s[1..], s[2..];
    assert u[0] == '\U{84}' && v[0] == '\U{AA}' && u[1..] == v && v[1..] == s[3..];
    assert HoldsDottedI(s) <==> HoldsDottedI(u);
    assert HoldsDottedI(u) <==> HoldsDottedI(v);
    assert HoldsDottedI(v) <==> HoldsDottedI(s[3..]);
  }

  lemma {:induction false} WithoutDottedI(s: Text, a: Text, b: Text)
    requires !HoldsDottedI(s)
    ensures Fold(s, a) == Fold(s, b)
  {
    if s != [] {
      if KELVIN <= s {
        BehindKelvin(s);
        WithoutDottedI(s[3..], a, b);
      } else {
        WithoutDottedI(s[1..], a, b);
      }
    }
  }

  /** A dotted capital I leaves its combining dot on the page's side. */
  lemma {:induction false} DotShows(s: Text)
    requires HoldsDottedI(s)
    ensures '\U{CC}' in PageLower(s)
  {
    if DOTTED_I <= s {
      assert ("i\U{CC}\U{87}" + PageLower(s[2..]))[1] == '\U{CC}';
    } else if KELVIN <= s {
      BehindKelvin(s);
      DotShows(s[3..]);
    } else {
      DotShows(s[1..]);
    }
  }

  predicate NoI(p: string) {
    forall i :: 0 <= i < |p| ==> p[i] != 'i'
  }

  /** No prefix without an i can tell the two apart. */
  lemma {:induction false} SamePrefix(p: string, s: Text, a: Text, b: Text)
    requires NoI(p) && "i" <= a && "i" <= b
    ensures p <= Fold(s, a) <==> p <= Fold(s, b)
    decreases |s|
  {
    if p != [] && s != [] {
      if DOTTED_I <= s {
        assert Fold(s, a)[0] == 'i' && Fold(s, b)[0] == 'i';
      } else {
        var rest := if KELVIN <= s then s[3..] else s[1..];
        SamePrefix(p[1..], rest, a, b);
        HeadFirst(p, Fold(s, a), Fold(rest, a));
        HeadFirst(p, Fold(s, b), Fold(rest, b));
      }
    }
  }

  lemma HeadFirst(p: string, s: Text, rest: Text)
    requires p != [] && s != [] && s[1..] == rest
    ensures p <= s <==> p[0] == s[0] && p[1..] <= rest
  {
    if p[0] == s[0] && p[1..] <= rest {
      assert p == [p[0]] + p[1..] && s == [s[0]] + rest;
    }
  }

  lemma SamePrefixes(key: Text)
    ensures HasTrackerPrefix(ServerLower(key)) <==> HasTrackerPrefix(PageLower(key))
  {
    var dotted: Text := "i\U{CC}\U{87}";
    SamePrefix("utm_", key, "i", dotted);
    SamePrefix("hsa_", key, "i", dotted);
    SamePrefix("ref_", key, "i", dotted);
    SamePrefix("pf_rd_", key, "i", dotted);
    SamePrefix("pd_rd_", key, "i", dotted);
  }

  lemma SearchTrackersHoldNoDot(tracker: string)
    requires tracker in SEARCH_TRACKERS
    ensures '\U{CC}' !in tracker
  {
  }

  lemma SocialTrackersHoldNoDot(tracker: string)
    requires tracker in SOCIAL_TRACKERS
    ensures '\U{CC}' !in tracker
  {
  }

  lemma MailingTrackersHoldNoDot(tracker: string)
    requires tracker in MAILING_TRACKERS
    ensures '\U{CC}' !in tracker
  {
  }

  lemma TrackersHoldNoDot(tracker: string)
    requires tracker in KNOWN_TRACKER_PARAMS
    ensures '\U{CC}' !in tracker
  {
    if tracker in SEARCH_TRACKERS {
      SearchTrackersHoldNoDot(tracker);
    } else if tracker in SOCIAL_TRACKERS {
      SocialTrackersHoldNoDot(tracker);
    } else {
      MailingTrackersHoldNoDot(tracker);
    }
  }

  /** Both lists of trackers and of prefixes are the same. */
  lemma SameLists(key: string)
    ensures key in TRACKERS <==> key in KNOWN_TRACKER_PARAMS
    ensures (exists i :: 0 <= i < |TRACKER_PREFIXES| && TRACKER_PREFIXES[i] <= key) <==> HasTrackerPrefix(key)
  {
    assert TRACKERS == KNOWN_TRACKER_PARAMS;
    assert TRACKER_PREFIXES[0] == "utm_" && TRACKER_PREFIXES[1] == "hsa_" && TRACKER_PREFIXES[2] == "ref_";
    assert TRACKER_PREFIXES[3] == "pf_rd_" && TRACKER_PREFIXES[4] == "pd_rd_";
  }

  /** A listed tracker, by no prefix, that is written with a dotted capital I. */
  predicate Contested(key: Text) {
    HoldsDottedI(key) && ServerLower(key) in KNOWN_TRACKER_PARAMS && !HasTrackerPrefix(ServerLower(key))
  }

  /** The page takes for trackers what the server does, but for the contested keys. */
  lemma SameTrackersButContested(key: Text)
    ensures IsTracker(key) <==> Tracker(key) && !Contested(key)
  {
    SameLists(PageLower(key));
    SamePrefixes(key);
    if HoldsDottedI(key) {
      DotShows(key);
      if PageLower(key) in KNOWN_TRACKER_PARAMS {
        TrackersHoldNoDot(PageLower(key));
      }
    } else {
      WithoutDottedI(key, "i", "i\U{CC}\U{87}");
    }
  }

  predicate HoldsContested(entries: seq<Pair>) {
    exists i :: 0 <= i < |entries| && Contested(entries[i].key)
  }

  lemma {:induction false} FiltersAgree(entries: seq<Pair>, out: Text -> bool, other: Text -> bool)
    requires forall i :: 0 <= i < |entries| ==> (out(entries[i].key) <==> other(entries[i].key))
    ensures Filter(entries, out) == Filter(entries, other) && KeysOf(entries, out) == KeysOf(entries, other)
  {
    if entries != [] {
      FiltersAgree(entries[..|entries| - 1], out, other);
    }
  }

  /** A contested key is dropped and reported by the server, kept and passed over by the page. */
  lemma ContestedTellsApart(entries: seq<Pair>, i: nat)
    requires i < |entries| && Contested(entries[i].key)
    ensures var key := entries[i].key;
            && Values(Listed(SurvivingBy(Group(entries), Tracker)), key) == []
            && Values(StableSort(KeptPairs(entries)), key) == Values(entries, key) != []
            && key in SortedKeys(StrippedBy(Group(entries), Tracker))
            && key !in SortedKeys(KeysOf(entries, IsTracker))
  {
    var key := entries[i].key;
    SameTrackersButContested(key);
    DeletingIsFiltering(entries, Tracker);
    StableSortIsStable(Filter(entries, Tracker));
    StableSortIsStable(KeptPairs(entries));
    FilterValues(entries, Tracker, key);
    FilterValues(entries, IsTracker, key);
    ValuesTellKeys(entries, key);
    SortedKeysAscend(StrippedBy(Group(entries), Tracker));
    SortedKeysAscend(KeysOf(entries, IsTracker));
  }

  /** The server's way and the page's way lead to the same pairs in the same order, and to the same report,
      exactly when no key is contested. */
  lemma TwoCleanersAgreeExactly(entries: seq<Pair>)
    ensures Listed(SurvivingBy(Group(entries), Tracker)) == StableSort(KeptPairs(entries)) <==> !HoldsContested(entries)
    ensures SortedKeys(StrippedBy(Group(entries), Tracker)) == SortedKeys(KeysOf(entries, IsTracker))
            <==> !HoldsContested(entries)
  {
    if i :| 0 <= i < |entries| && Contested(entries[i].key) {
      ContestedTellsApart(entries, i);
    } else {
      forall i | 0 <= i < |entries| ensures Tracker(entries[i].key) <==> IsTracker(entries[i].key) {
        SameTrackersButContested(entries[i].key);
      }
      FiltersAgree(entries, Tracker, IsTracker);
      DeletingIsFiltering(entries, Tracker);
    }
  }

  /** They do differ: the share identifier written with a dotted capital I. */
  lemma CleanersDisagree()
    ensures var key: Text := "s\U{C4}\U{B0}"; Contested(key) && Tracker(key) && !IsTracker(key)
  {
    var key: Text := "s\U{C4}\U{B0}";
    assert key[1..] == DOTTED_I && key[1..][2..] == [];
    assert Fold(key[1..], "i") == "i" + Fold([], "i");
    assert ServerLower(key) == "si";
    SameTrackersButContested(key);
  }

  lemma SurvivingIsParsed(raw: Text, out: Text -> bool)
    ensures Parse(CleanedBy(raw, out)) == SurvivingBy(Parse(raw), out)
  {
    ParsedHasNoEmptyKey(raw);
    QueryRoundTrip(SurvivingBy(Parse(raw), out));
  }

  lemma DeletingKeepsTheRest(raw: Text, out: Text -> bool, key: Text)
    ensures Values(ParsePairs(CleanedBy(raw, out)), key) == if out(key) then [] else Values(ParsePairs(raw), key)
    ensures out(key) ==> key !in Parse(CleanedBy(raw, out))
  {
    SurvivingIsParsed(raw, out);
    GroupHoldsValues(ParsePairs(CleanedBy(raw, out)), key);
    GroupHoldsValues(ParsePairs(raw), key);
    SurvivingValues(Parse(raw), out, key);
  }

  lemma DeletingIsIdempotent(raw: Text, out: Text -> bool)
    ensures CleanedBy(CleanedBy(raw, out), out) == CleanedBy(raw, out)
    ensures StrippedBy(Parse(CleanedBy(raw, out)), out) == {}
  {
    SurvivingIsParsed(raw, out);
    var m := SurvivingBy(Parse(raw), out);
    assert StrippedBy(m, out) == {};
    assert SurvivingBy(m, out) == m;
  }

  /** The cleaned query says of every key that is no tracker what the parts of the raw one said, in their order, bare
      keys and keys between malformed parts included; and of trackers nothing. */
  lemma CleaningKeepsTheRest(parts: seq<Text>, left: seq<Text>, key: Text)
    requires AreParts(parts) && AreParts(left) && JoinParts(left) == CleanedQuery(JoinParts(parts))
    ensures ValuesSaid(left, key) == if Tracker(key) then [] else ValuesSaid(parts, key)
  {
    DeletingKeepsTheRest(JoinParts(parts), Tracker, key);
    QueriesAreReadByParts(parts, key);
    QueriesAreReadByParts(left, key);
  }

  /** No tracker is left, in whatever case its letters are written. */
  lemma NoTrackerSurvives(raw: Text, tracker: Text, written: Text)
    requires Tracker(tracker) && ServerLower(written) == ServerLower(tracker)
    ensures written !in Parse(CleanedQuery(raw))
  {
    DeletingKeepsTheRest(raw, Tracker, written);
  }

  /** Cleaning a cleaned query strips nothing and gives it back as it is. */
  lemma CleaningIsIdempotent(raw: Text)
    ensures CleanedQuery(CleanedQuery(raw)) == CleanedQuery(raw) && RemovedFrom(CleanedQuery(raw)) == []
  {
    DeletingIsIdempotent(raw, Tracker);
  }

  /** The keys reported as removed are exactly the trackers that some part named, each once, in order. */
  lemma RemovedAreTheTrackers(parts: seq<Text>, key: Text)
    requires AreParts(parts)
    ensures key in RemovedFrom(JoinParts(parts)) <==> Tracker(key) && ValuesSaid(parts, key) != []
    ensures Ascending(RemovedFrom(JoinParts(parts)))
  {
    var raw := JoinParts(parts);
    SortedKeysAscend(StrippedBy(Parse(raw), Tracker));
    GroupHoldsValues(ParsePairs(raw), key);
    QueriesAreReadByParts(parts, key);
  }

  // ---------- trackers in any case ----------

  /** One letter in its two cases. */
  predicate CaseTwins(a: Byte, b: Byte) {
    || a == b
    || ('A' <= a <= 'Z' && b as int == a as int + 32)
    || ('A' <= b <= 'Z' && a as int == b as int + 32)
  }

  /** The same text but for the case of ASCII letters. */
  predicate SameLetters(s: Text, u: Text) {
    |s| == |u| && forall i :: 0 <= i < |s| ==> CaseTwins(s[i], u[i])
  }

  lemma {:induction false} SameLettersFoldAlike(s: Text, u: Text, dotted: Text)
    requires SameLetters(s, u)
    ensures Fold(s, dotted) == Fold(u, dotted)
  {
    if s != [] {
      assert DOTTED_I <= s <==> DOTTED_I <= u;
      assert KELVIN <= s <==> KELVIN <= u;
      var n := if DOTTED_I <= s then 2 else if KELVIN <= s then 3 else 1;
      assert SameLetters(s[n..], u[n..]);
      SameLettersFoldAlike(s[n..], u[n..], dotted);
    }
  }

  /** A text with neither capitals nor bytes beyond ASCII is its own lower case. */
  lemma {:induction false} LowerFoldsToItself(s: Text, dotted: Text)
    requires forall i :: 0 <= i < |s| ==> s[i] as int < 128 && !('A' <= s[i] <= 'Z')
    ensures Fold(s, dotted) == s
  {
    if s != [] {
      LowerFoldsToItself(s[1..], dotted);
      assert s == [s[0]] + s[1..];
    }
  }

  /** Neither program minds the case of ASCII letters, and in lower case a key is a tracker exactly when it is listed
      or begins with one of the prefixes. */
  lemma TrackersInAnyCase(key: Text, written: Text)
    requires forall i :: 0 <= i < |key| ==> key[i] as int < 128 && !('A' <= key[i] <= 'Z')
    requires SameLetters(key, written)
    ensures Tracker(written) <==> IsTracker(written)
    ensures Tracker(written) <==>
              || key in KNOWN_TRACKER_PARAMS
              || "utm_" <= key || "hsa_" <= key || "ref_" <= key || "pf_rd_" <= key || "pd_rd_" <= key
  {
    LowerFoldsToItself(key, "i");
    LowerFoldsToItself(key, "i\U{CC}\U{87}");
    SameLettersFoldAlike(key, written, "i");
    SameLettersFoldAlike(key, written, "i\U{CC}\U{87}");
    SameLists(key);
  }
}
