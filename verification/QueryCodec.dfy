/** Query strings as Go's net/url reads and writes them: percent-encoding as in section 2.1 of RFC 3986,
    with '+' for a space. */
module QueryCodec {
  import opened Wrappers
  import opened Texts

  type Params = map<Text, seq<Text>>

  // ---------- percent-encoding ----------

  predicate Unreserved(c: Byte) {
    'a' <= c <= 'z' || 'A' <= c <= 'Z' || '0' <= c <= '9' || c in "-_.~"
  }

  function HexDigit(n: int): Byte
    requires 0 <= n < 16
  {
    if n < 10 then (48 + n) as char else (55 + n) as char
  }

  function HexValue(c: Byte): Option<int> {
    if '0' <= c <= '9' then Some(c as int - 48)
    else if 'A' <= c <= 'F' then Some(c as int - 55)
    else if 'a' <= c <= 'f' then Some(c as int - 87)
    else None
  }

  function EscapeByte(c: Byte): Text {
    if Unreserved(c) then [c]
    else if c == ' ' then ['+']
    else ['%', HexDigit(c as int / 16), HexDigit(c as int % 16)]
  }

  function Escape(s: Text): Text {
    if s == [] then [] else EscapeByte(s[0]) + Escape(s[1..])
  }

  function Prepend(c: Byte, rest: Option<Text>): Option<Text> {
    if rest.Some? then Some([c] + rest.value) else None
  }

  /** `None` when a '%' is not followed by two hexadecimal digits. */
  function Unescape(s: Text): Option<Text> {
    if s == [] then Some([])
    else if s[0] == '%' then
      if |s| < 3 || HexValue(s[1]).None? || HexValue(s[2]).None? then None
      else Prepend((HexValue(s[1]).value * 16 + HexValue(s[2]).value) as char, Unescape(s[3..]))
    else Prepend(if s[0] == '+' then ' ' else s[0], Unescape(s[1..]))
  }

  lemma HexRoundTrip(n: int)
    requires 0 <= n < 16
    ensures HexValue(HexDigit(n)) == Some(n)
  {
  }

  lemma EscapedByteReadsBack(c: Byte, rest: Text)
    ensures Unescape(EscapeByte(c) + rest) == Prepend(c, Unescape(rest))
  {
    var e := EscapeByte(c) + rest;
    if Unreserved(c) || c == ' ' {
      assert e[1..] == rest;
    } else {
      HexRoundTrip(c as int / 16);
      HexRoundTrip(c as int % 16);
      assert e[3..] == rest;
    }
  }

  lemma {:induction false} EscapeRoundTrip(s: Text)
    ensures Unescape(Escape(s)) == Some(s)
  {
    if s != [] {
      EscapeRoundTrip(s[1..]);
      EscapedByteReadsBack(s[0], Escape(s[1..]));
      assert s == [s[0]] + s[1..];
    }
  }

  /** A digit of either case reads as the number it stands for. */
  lemma HexDigitsAreRead(n: nat)
    requires n < 16
    ensures HexValue("0123456789abcdef"[n]) == Some(n) && HexValue("0123456789ABCDEF"[n]) == Some(n)
  {
  }

  /** The unreserved characters of section 2.3 of RFC 3986, by their codes. */
  lemma UnreservedAre(c: Byte)
    ensures Unreserved(c) <==>
              var n := c as int;
              48 <= n <= 57 || 65 <= n <= 90 || 97 <= n <= 122 || n == 45 || n == 46 || n == 95 || n == 126
  {
  }

  predicate UpperHex(c: Byte) {
    '0' <= c <= '9' || 'A' <= c <= 'F'
  }

  /** The byte that two digits name. */
  function Named(a: Byte, b: Byte): Byte
    requires UpperHex(a) && UpperHex(b)
  {
    (HexValue(a).value * 16 + HexValue(b).value) as char
  }

  /** Letters, digits and the four marks as they are, '+' for a space, and every other byte as '%' and two upper-case
      digits. */
  predicate Canonical(s: Text) {
    if s == [] then true
    else if s[0] == '%' then
      && |s| >= 3 && UpperHex(s[1]) && UpperHex(s[2]) && Canonical(s[3..])
      && Named(s[1], s[2]) != ' ' && !Unreserved(Named(s[1], s[2]))
    else (Unreserved(s[0]) || s[0] == '+') && Canonical(s[1..])
  }

  lemma {:induction false} EscapeIsCanonical(s: Text)
    ensures Canonical(Escape(s))
  {
    if s != [] {
      EscapeIsCanonical(s[1..]);
      var e, rest := Escape(s), Escape(s[1..]);
      if Unreserved(s[0]) || s[0] == ' ' {
        assert e[1..] == rest;
      } else {
        HexRoundTrip(s[0] as int / 16);
        HexRoundTrip(s[0] as int % 16);
        assert e[3..] == rest;
      }
    }
  }

  lemma NamedIsEscaped(a: Byte, b: Byte)
    requires UpperHex(a) && UpperHex(b) && Named(a, b) != ' ' && !Unreserved(Named(a, b))
    ensures EscapeByte(Named(a, b)) == ['%', a, b]
  {
    var m, n := HexValue(a).value, HexValue(b).value;
    assert (m * 16 + n) / 16 == m && (m * 16 + n) % 16 == n;
    assert HexDigit(m) == a && HexDigit(n) == b;
  }

  lemma EscapeCons(c: Byte, s: Text)
    ensures Escape([c] + s) == EscapeByte(c) + Escape(s)
  {
    assert ([c] + s)[1..] == s;
  }

  /** Of all ways to write a text, escaping picks the canonical one. */
  lemma {:induction false} CanonicalIsEscaped(u: Text)
    requires Canonical(u)
    ensures Unescape(u).Some? && Escape(Unescape(u).value) == u
  {
    if u != [] {
      if u[0] == '%' {
        CanonicalIsEscaped(u[3..]);
        NamedIsEscaped(u[1], u[2]);
        EscapeCons(Named(u[1], u[2]), Unescape(u[3..]).value);
        assert u == ['%', u[1], u[2]] + u[3..];
      } else {
        CanonicalIsEscaped(u[1..]);
        EscapeCons(if u[0] == '+' then ' ' else u[0], Unescape(u[1..]).value);
        assert u == [u[0]] + u[1..];
      }
    }
  }

  /** Nothing that separates pairs, keys or values survives escaping. */
  lemma {:induction false} EscapeHidesSeparators(s: Text)
    ensures '&' !in Escape(s) && '=' !in Escape(s) && ';' !in Escape(s)
  {
    if s != [] {
      EscapeHidesSeparators(s[1..]);
      var n := s[0] as int;
      assert HexDigit(n / 16) as int >= 48 && HexDigit(n % 16) as int >= 48;
      assert '&' !in EscapeByte(s[0]) && '=' !in EscapeByte(s[0]) && ';' !in EscapeByte(s[0]);
    }
  }

  // ---------- reading ----------

  /** Where c first occurs, or the length. */
  function Find(s: Text, c: Byte): (i: nat)
    ensures i <= |s| && (i < |s| ==> s[i] == c) && c !in s[..i]
  {
    if s == [] || s[0] == c then 0
    else
      var i := 1 + Find(s[1..], c);
      assert s[..i] == [s[0]] + s[1..][..i - 1];
      i
  }

  function Behind(s: Text, i: nat): Text
    requires i <= |s|
  {
    if i < |s| then s[i + 1..] else []
  }

  /** One segment of a query: a pair, or nothing where the segment is malformed. */
  function ParseSegment(s: Text): seq<Pair> {
    if s == [] || ';' in s then []
    else
      var i := Find(s, '=');
      var key, value := Unescape(s[..i]), Unescape(Behind(s, i));
      if key.None? || value.None? then [] else [Pair(key.value, value.value)]
  }

  function ParsePairs(s: Text): seq<Pair>
    decreases |s|
  {
    if s == [] then []
    else
      var i := Find(s, '&');
      ParseSegment(s[..i]) + ParsePairs(Behind(s, i))
  }

  function ValuesIn(m: Params, key: Text): seq<Text> {
    if key in m then m[key] else []
  }

  function Group(ps: seq<Pair>): Params {
    if ps == [] then map[]
    else
      var n := |ps| - 1;
      var m := Group(ps[..n]);
      m[ps[n].key := ValuesIn(m, ps[n].key) + [ps[n].value]]
  }

  /** url.ParseQuery with its error ignored, as URL.Query does. */
  function Parse(s: Text): Params {
    Group(ParsePairs(s))
  }

  // ---------- writing ----------

  function Segment(p: Pair): Text {
    Escape(p.key) + ['='] + Escape(p.value)
  }

  function JoinPairs(ps: seq<Pair>): Text {
    if ps == [] then []
    else if |ps| == 1 then Segment(ps[0])
    else Segment(ps[0]) + ['&'] + JoinPairs(ps[1..])
  }

  function Tagged(key: Text, values: seq<Text>): seq<Pair> {
    seq(|values|, i requires 0 <= i < |values| => Pair(key, values[i]))
  }

  function Emit(m: Params, keys: seq<Text>): seq<Pair>
    requires forall k :: k in keys ==> k in m
  {
    if keys == [] then [] else Tagged(keys[0], m[keys[0]]) + Emit(m, keys[1..])
  }

  function Listed(m: Params): seq<Pair> {
    SortedKeysAscend(m.Keys);
    Emit(m, SortedKeys(m.Keys))
  }

  /** url.Values.Encode: sorted by key, each key's values in order. */
  function Encode(m: Params): Text {
    JoinPairs(Listed(m))
  }

  // ---------- round trips ----------

  lemma {:induction false} FindFirst(a: Text, c: Byte, b: Text)
    requires c !in a
    ensures Find(a + [c] + b, c) == |a| && Find(a, c) == |a|
  {
    if a == [] {
      assert a + [c] + b == [c] + b;
    } else {
      FindFirst(a[1..], c, b);
      assert (a + [c] + b)[1..] == a[1..] + [c] + b;
    }
  }

  lemma SegmentRoundTrip(p: Pair)
    ensures ParseSegment(Segment(p)) == [p]
    ensures '&' !in Segment(p) && Segment(p) != []
  {
    EscapeHidesSeparators(p.key);
    EscapeHidesSeparators(p.value);
    EscapeRoundTrip(p.key);
    EscapeRoundTrip(p.value);
    FindFirst(Escape(p.key), '=', Escape(p.value));
    assert Segment(p)[..|Escape(p.key)|] == Escape(p.key);
    assert Behind(Segment(p), |Escape(p.key)|) == Escape(p.value);
  }

  lemma FirstSegment(s: Text, rest: Text)
    requires '&' !in s
    ensures ParsePairs(s) == ParseSegment(s)
    ensures ParsePairs(s + ['&'] + rest) == ParseSegment(s) + ParsePairs(rest)
  {
    FindFirst(s, '&', rest);
    assert s[..|s|] == s;
    var joined := s + ['&'] + rest;
    assert joined[..|s|] == s && Behind(joined, |s|) == rest;
  }

  /** What was written as pairs reads back as the same pairs in the same order. */
  lemma {:induction false} PairsRoundTrip(ps: seq<Pair>)
    ensures ParsePairs(JoinPairs(ps)) == ps
  {
    if ps != [] {
      SegmentRoundTrip(ps[0]);
      PairsRoundTrip(ps[1..]);
      FirstSegment(Segment(ps[0]), JoinPairs(ps[1..]));
      assert ps == [ps[0]] + ps[1..];
    }
  }

  // ---------- what a raw query says ----------

  /** Parts, with '&' between them. */
  function JoinParts(parts: seq<Text>): Text {
    if parts == [] then [] else if |parts| == 1 then parts[0] else parts[0] + ['&'] + JoinParts(parts[1..])
  }

  predicate AreParts(parts: seq<Text>) {
    forall i :: 0 <= i < |parts| ==> '&' !in parts[i]
  }

  /** Every query falls into parts. */
  lemma {:induction false} EveryQueryHasParts(raw: Text) returns (parts: seq<Text>)
    ensures AreParts(parts) && JoinParts(parts) == raw
    decreases |raw|
  {
    var i := Find(raw, '&');
    if i < |raw| {
      var more := EveryQueryHasParts(raw[i + 1..]);
      if more == [] {
        parts := [raw[..i], []];
        assert parts[1..] == [[]];
      } else {
        parts := [raw[..i]] + more;
        assert parts[1..] == more;
      }
      assert raw == raw[..i] + ['&'] + raw[i + 1..];
    } else {
      parts := [raw];
      assert raw[..i] == raw;
    }
  }

  /** The part is written as this key and this value: with '=' between them where it first occurs, or as a bare key,
      whose value is empty. */
  predicate WrittenAs(part: Text, key: Text, value: Text) {
    '=' !in key && (part == key + ['='] + value || (part == key && value == []))
  }

  /** The part says that this key has this value. */
  predicate Says(part: Text, key: Text, value: Text, k: Text, v: Text) {
    && part != [] && ';' !in part && WrittenAs(part, key, value)
    && Unescape(key) == Some(k) && Unescape(value) == Some(v)
  }

  /** Every part is written as a key and a value, and as no others. */
  lemma PartIsWritten(part: Text) returns (key: Text, value: Text)
    ensures WrittenAs(part, key, value)
    ensures forall k: Text, v: Text :: WrittenAs(part, k, v) ==> k == key && v == value
    ensures key == part[..Find(part, '=')] && value == Behind(part, Find(part, '='))
  {
    var i := Find(part, '=');
    key, value := part[..i], Behind(part, i);
    assert i < |part| ==> part == key + ['='] + value;
    forall k: Text, v: Text | WrittenAs(part, k, v) ensures k == key && v == value {
      FindFirst(k, '=', v);
      if part == k + ['='] + v {
        assert part[..|k|] == k && part[|k| + 1..] == v;
      }
    }
  }

  /** A part that says something is read as that one pair. Any other is passed over: an empty one, one with a ';', and
      one whose key or value is badly escaped. */
  lemma PartsAreRead(part: Text, key: Text, value: Text, k: Text, v: Text)
    ensures Says(part, key, value, k, v) ==> ParseSegment(part) == [Pair(k, v)]
    ensures part == [] || ';' in part ==> ParseSegment(part) == []
    ensures WrittenAs(part, key, value) && (Unescape(key).None? || Unescape(value).None?) ==> ParseSegment(part) == []
  {
    var a, b := PartIsWritten(part);
  }

  /** A bare key reads as the key with an empty value written out. */
  lemma BareKeysAreRead(key: Text)
    requires key != [] && '&' !in key && '=' !in key && ';' !in key
    ensures ParseSegment(key) == ParseSegment(key + ['='])
    ensures Unescape(key).Some? ==> ParseSegment(key) == [Pair(Unescape(key).value, [])]
  {
    assert key + ['='] == key + ['='] + [];
    FindFirst(key, '=', []);
    assert (key + ['='])[..|key|] == key && key[..|key|] == key;
  }

  /** What a part says of a key, if anything. */
  ghost function Said(part: Text, k: Text): (said: seq<Text>)
    ensures said == [] <==> forall key: Text, value: Text, v: Text :: !Says(part, key, value, k, v)
    ensures said != [] ==> |said| == 1 && exists key: Text, value: Text :: Says(part, key, value, k, said[0])
  {
    if exists key: Text, value: Text, v: Text :: Says(part, key, value, k, v) then
      var key: Text, value: Text, v: Text :| Says(part, key, value, k, v);
      assert Says(part, key, value, k, [v][0]);
      [v]
    else []
  }

  /** And what all of them say, in order. */
  ghost function ValuesSaid(parts: seq<Text>, k: Text): seq<Text> {
    if parts == [] then [] else Said(parts[0], k) + ValuesSaid(parts[1..], k)
  }

  lemma PartSays(part: Text, k: Text)
    ensures Values(ParseSegment(part), k) == Said(part, k)
  {
    var key, value := PartIsWritten(part);
    forall a: Text, b: Text, v: Text | Says(part, a, b, k, v) ensures ParseSegment(part) == [Pair(k, v)] {
      PartsAreRead(part, a, b, k, v);
    }
    if ParseSegment(part) != [] {
      var p := ParseSegment(part)[0];
      assert Says(part, key, value, p.key, p.value);
      assert [p][1..] == [];
    }
  }

  lemma FirstPartFirst(parts: seq<Text>, k: Text)
    requires parts != [] && '&' !in parts[0]
    ensures Values(ParsePairs(JoinParts(parts)), k)
            == Values(ParseSegment(parts[0]), k) + Values(ParsePairs(JoinParts(parts[1..])), k)
  {
    FirstSegment(parts[0], JoinParts(parts[1..]));
    ValuesOfConcat(ParseSegment(parts[0]), ParsePairs(JoinParts(parts[1..])), k);
    if |parts| == 1 {
      assert parts[1..] == [];
    }
  }

  /** A query is read part by part: it gives each key the values its parts say, in their order. */
  lemma {:induction false} QueriesAreReadByParts(parts: seq<Text>, k: Text)
    requires AreParts(parts)
    ensures Values(ParsePairs(JoinParts(parts)), k) == ValuesSaid(parts, k)
  {
    if parts != [] {
      QueriesAreReadByParts(parts[1..], k);
      PartSays(parts[0], k);
      FirstPartFirst(parts, k);
    }
  }

  lemma {:induction false} GroupHoldsValues(ps: seq<Pair>, key: Text)
    ensures ValuesIn(Group(ps), key) == Values(ps, key)
    ensures key in Group(ps) <==> Values(ps, key) != []
  {
    if ps != [] {
      var n := |ps| - 1;
      GroupHoldsValues(ps[..n], key);
      ValuesOfConcat(ps[..n], [ps[n]], key);
      assert ps == ps[..n] + [ps[n]];
      assert [ps[n]][1..] == [];
    }
  }

  lemma {:induction false} TaggedValues(key: Text, values: seq<Text>, k: Text)
    ensures Values(Tagged(key, values), k) == if k == key then values else []
  {
    if values != [] {
      TaggedValues(key, values[1..], k);
      assert Tagged(key, values)[1..] == Tagged(key, values[1..]);
      assert values == [values[0]] + values[1..];
    }
  }

  lemma {:induction false} EmitValues(m: Params, keys: seq<Text>, k: Text)
    requires Ascending(keys) && forall j :: j in keys ==> j in m
    ensures Values(Emit(m, keys), k) == if k in keys then m[k] else []
  {
    if keys != [] {
      EmitValues(m, keys[1..], k);
      TailMembers(keys);
      TaggedValues(keys[0], m[keys[0]], k);
      ValuesOfConcat(Tagged(keys[0], m[keys[0]]), Emit(m, keys[1..]), k);
    }
  }

  lemma ListedValues(m: Params, k: Text)
    ensures Values(Listed(m), k) == ValuesIn(m, k)
  {
    SortedKeysAscend(m.Keys);
    EmitValues(m, SortedKeys(m.Keys), k);
  }

  lemma {:induction false} EmitIsByKey(m: Params, keys: seq<Text>)
    requires Ascending(keys) && forall j :: j in keys ==> j in m
    ensures ByKey(Emit(m, keys)) && forall p :: p in Emit(m, keys) ==> p.key in keys
  {
    if keys != [] {
      EmitIsByKey(m, keys[1..]);
      TailMembers(keys);
      var first, rest := Tagged(keys[0], m[keys[0]]), Emit(m, keys[1..]);
      var all := first + rest;
      Total(keys[0], keys[0]);
      forall i, j | 0 <= i < j < |all| ensures AtMost(all[i].key, all[j].key) {
        if j >= |first| {
          assert rest[j - |first|] in rest;
          HeadIsLeast(keys, all[j].key);
          if i >= |first| {
            assert all[i] == rest[i - |first|];
          }
        }
      }
    }
  }

  lemma ListedIsByKey(m: Params)
    ensures ByKey(Listed(m))
  {
    SortedKeysAscend(m.Keys);
    EmitIsByKey(m, SortedKeys(m.Keys));
  }

  predicate NoEmptyKey(m: Params) {
    forall key :: key in m ==> m[key] != []
  }

  lemma ParsedHasNoEmptyKey(s: Text)
    ensures NoEmptyKey(Parse(s))
  {
    forall key | key in Parse(s) ensures Parse(s)[key] != [] {
      GroupHoldsValues(ParsePairs(s), key);
    }
  }

  /** Every multimap of byte strings reads back as it was written. */
  lemma QueryRoundTrip(m: Params)
    requires NoEmptyKey(m)
    ensures Parse(Encode(m)) == m
  {
    PairsRoundTrip(Listed(m));
    var read := Parse(Encode(m));
    forall key ensures (key in read <==> key in m) && ValuesIn(read, key) == ValuesIn(m, key) {
      GroupHoldsValues(Listed(m), key);
      ListedValues(m, key);
    }
    assert forall key :: key in m ==> m[key] == ValuesIn(m, key) && ValuesIn(read, key) == m[key];
  }
}
