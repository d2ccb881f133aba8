/** The parallel CSV import: a loop that hands rows to at most ten workers at a time, each of which creates
    one link and reports. Link creation is one step, being under the link service's lock. */
module CsvImport {
  import opened Wrappers
  import opened Links

  const WORKERS := 10

  type RowNumber = nat

  /** Where a header stands; the last of several wins. */
  ghost function ColumnOf(headers: seq<string>, name: string): (i: Option<nat>)
    ensures i.Some? ==> i.value < |headers| && ToLower(Trim(headers[i.value])) == name
    ensures forall j :: (if i.Some? then i.value + 1 else 0) <= j < |headers| ==> ToLower(Trim(headers[j])) != name
  {
    if headers == [] then None
    else if ToLower(Trim(headers[|headers| - 1])) == name then Some(|headers| - 1)
    else ColumnOf(headers[..|headers| - 1], name)
  }

  function Either(a: Option<nat>, b: Option<nat>): Option<nat> {
    if a.Some? then a else b
  }

  /** What the loop makes of a row: nothing to do, or a link to create under this slug, empty if it is left
      open. `acceptable` says whether creation would accept the row if the slug were free. */
  datatype Row = Blank | Asks(slug: string, acceptable: bool)

  /** `refused` stands for every reason to turn the row down other than its slug: its URL, say. */
  function ReadRow(fields: seq<string>, urlColumn: nat, slugColumn: Option<nat>, refused: bool): Row {
    if |fields| <= urlColumn || Trim(fields[urlColumn]) == "" then Blank
    else
      var slug := if slugColumn.Some? && |fields| > slugColumn.value then Trim(fields[slugColumn.value]) else "";
      Asks(slug, !refused && (slug == "" || Storable(slug)))
  }

  /** The rows of a file and the slugs that were taken before. */
  datatype Config = Config(rows: seq<Row>, taken: set<string>)

  ghost function UrlColumn(headers: seq<string>): Option<nat> {
    Either(ColumnOf(headers, "url"), Either(ColumnOf(headers, "target_url"), ColumnOf(headers, "destination")))
  }

  ghost function SlugColumn(headers: seq<string>): Option<nat> {
    Either(ColumnOf(headers, "slug"), ColumnOf(headers, "custom_slug"))
  }

  /** Nothing when the file is too short or names no URL column: the import then fails as a whole. */
  function PlanBy(records: seq<seq<string>>, url: Option<nat>, slug: Option<nat>, refused: set<RowNumber>,
                  taken: set<string>): (c: Option<Config>)
    ensures c.Some? ==> |c.value.rows| == |records| - 1 && c.value.taken == taken
  {
    if |records| < 2 || url.None? then None
    else
      var rows := seq(|records| - 1,
                      i requires 0 <= i < |records| - 1 => ReadRow(records[i + 1], url.value, slug, i in refused));
      Some(Config(rows, taken))
  }

  ghost function Plan(records: seq<seq<string>>, refused: set<RowNumber>, taken: set<string>): (c: Option<Config>)
    ensures c.Some? ==> |c.value.rows| == |records| - 1 && c.value.taken == taken
  {
    if records == [] then None
    else PlanBy(records, UrlColumn(records[0]), SlugColumn(records[0]), refused, taken)
  }

  datatype Status =
    | Skimmed // short or blank: not handed out
    | Creating
    | Reporting(ok: bool) // created or refused: about to count it
    | Releasing(ok: bool) // counted: about to give up its place
    | Finished(ok: bool)

  datatype State = State(
    next: RowNumber, // the row the loop is at
    status: map<RowNumber, Status>,
    taken: set<string>, // slugs of the root domain
    created: int,
    skipped: int,
    errors: seq<int>, // line numbers
    // history
    gained: set<string>, // custom slugs this import took
    plain: set<RowNumber>, // rows created with a generated slug
    generated: set<string>)

  datatype Event =
    | Loop // the next row is skipped or handed to a new worker
    | Create(i: RowNumber, generated: string)
    | Report(i: RowNumber)
    | Release(i: RowNumber)

  /** Data rows are counted from 2 in the report: the header is line 1. */
  function Line(i: RowNumber): int {
    i + 2
  }

  function Init(c: Config): State {
    State(0, map[], c.taken, 0, 0, [], {}, {}, {})
  }

  predicate Busy(st: Status) {
    st.Creating? || st.Reporting? || st.Releasing?
  }

  function InFlight(s: State): set<RowNumber> {
    set i | i in s.status && Busy(s.status[i])
  }

  predicate Acceptable(c: Config, i: RowNumber) {
    i < |c.rows| && c.rows[i].Asks? && c.rows[i].acceptable
  }

  /** The slug a row asks for; none when empty. */
  function SlugOf(c: Config, i: RowNumber): string
    requires i < |c.rows|
  {
    if c.rows[i].Asks? then c.rows[i].slug else ""
  }

  /** The slugs that acceptable rows ask for and that were not taken before. */
  function WantedSlugs(c: Config): set<string> {
    set i | 0 <= i < |c.rows| && Acceptable(c, i) && SlugOf(c, i) != "" && SlugOf(c, i) !in c.taken :: SlugOf(c, i)
  }

  function PlainRows(c: Config): set<RowNumber> {
    set i: RowNumber | 0 <= i < |c.rows| && Acceptable(c, i) && SlugOf(c, i) == ""
  }

  /** What link creation answers: the row is acceptable, and its slug is left to be generated or free. */
  predicate Succeeds(c: Config, s: State, i: RowNumber)
    requires i < |c.rows|
  {
    Acceptable(c, i) && (SlugOf(c, i) == "" || SlugOf(c, i) !in s.taken)
  }

  /** No row of the file asks for this slug. */
  predicate Unasked(c: Config, slug: string) {
    forall j :: 0 <= j < |c.rows| ==> SlugOf(c, j) != slug
  }

  predicate Enabled(c: Config, s: State, e: Event) {
    match e
    case Loop => s.next < |c.rows| && (c.rows[s.next].Blank? || |InFlight(s)| < WORKERS)
    case Create(i, g) =>
      && i in s.status && s.status[i].Creating? && i < |c.rows|
      && g !in s.taken && Unasked(c, g) // generated slugs are fresh
    case Report(i) => i in s.status && s.status[i].Reporting?
    case Release(i) => i in s.status && s.status[i].Releasing?
  }

  function Apply(c: Config, s: State, e: Event): State
    requires Enabled(c, s, e)
  {
    match e
    case Loop =>
      s.(next := s.next + 1, status := s.status[s.next := if c.rows[s.next].Blank? then Skimmed else Creating])
    case Create(i, g) =>
      var ok := Succeeds(c, s, i);
      var u := s.(status := s.status[i := Reporting(ok)]);
      if !ok then u
      else if SlugOf(c, i) == "" then u.(taken := s.taken + {g}, plain := s.plain + {i}, generated := s.generated + {g})
      else u.(taken := s.taken + {SlugOf(c, i)}, gained := s.gained + {SlugOf(c, i)})
    case Report(i) =>
      var ok := s.status[i].ok;
      var u := s.(status := s.status[i := Releasing(ok)]);
      if ok then u.(created := s.created + 1) else u.(skipped := s.skipped + 1, errors := s.errors + [Line(i)])
    case Release(i) => s.(status := s.status[i := Finished(s.status[i].ok)])
  }

  predicate Possible(c: Config, es: seq<Event>)
    decreases |es|, 0
  {
    es == [] || (Possible(c, es[..|es| - 1]) && Enabled(c, After(c, es[..|es| - 1]), es[|es| - 1]))
  }

  function After(c: Config, es: seq<Event>): State
    requires Possible(c, es)
    decreases |es|, 1
  {
    if es == [] then Init(c) else Apply(c, After(c, es[..|es| - 1]), es[|es| - 1])
  }

  /** The loop is through and every worker is done. */
  predicate Complete(c: Config, s: State) {
    s.next == |c.rows| && forall i :: i in s.status ==> s.status[i].Skimmed? || s.status[i].Finished?
  }

  // ---------- the invariant ----------

  predicate Counted(st: Status, ok: bool) {
    st == Releasing(ok) || st == Finished(ok)
  }

  predicate Won(st: Status) {
    st == Reporting(true) || Counted(st, true)
  }

  function CountedRows(s: State, ok: bool): set<RowNumber> {
    set i | i in s.status && Counted(s.status[i], ok)
  }

  function WonRows(s: State): set<RowNumber> {
    set i | i in s.status && Won(s.status[i])
  }

  ghost predicate CountersOk(s: State) {
    && s.created == |CountedRows(s, true)| && s.skipped == |CountedRows(s, false)| && |s.errors| == s.skipped
    && |InFlight(s)| <= WORKERS
  }

  ghost predicate ErrorsOk(s: State) {
    && (forall i: RowNumber :: i in CountedRows(s, false) <==> Line(i) in s.errors)
    && forall j, k :: 0 <= j < k < |s.errors| ==> s.errors[j] != s.errors[k]
  }

  ghost predicate RowsOk(c: Config, s: State) {
    && s.next <= |c.rows|
    && (forall i: RowNumber :: i in s.status <==> i < s.next)
    && (forall i :: i in s.status ==> (s.status[i].Skimmed? <==> c.rows[i].Blank?))
  }

  /** Where a worker's attempt leaves the slug it asked for. */
  predicate Settled(c: Config, s: State, i: RowNumber)
    requires i < |c.rows| && i in s.status
  {
    var slug := SlugOf(c, i);
    && (Acceptable(c, i) && slug == "" ==> Won(s.status[i]))
    && (Won(s.status[i]) ==> Acceptable(c, i) && if slug == "" then i in s.plain else slug in s.gained)
    && (Acceptable(c, i) && slug != "" ==> slug in c.taken + s.gained)
  }

  ghost predicate SlugsOk(c: Config, s: State)
    requires RowsOk(c, s)
  {
    && s.taken == c.taken + s.gained + s.generated
    && s.gained <= WantedSlugs(c) && s.plain <= PlainRows(c) && s.plain <= WonRows(s)
    && (forall g :: g in s.generated ==> Unasked(c, g))
    && (forall i :: i in s.status && !s.status[i].Skimmed? && !s.status[i].Creating? ==> Settled(c, s, i))
    && |s.gained| + |s.plain| == |WonRows(s)|
  }

  /** No two rows were created with the same custom slug. */
  ghost predicate WinnersDiffer(c: Config, s: State)
    requires RowsOk(c, s)
  {
    forall i, j :: i in WonRows(s) && j in WonRows(s) && i != j && SlugOf(c, i) == SlugOf(c, j) ==> SlugOf(c, i) == ""
  }

  ghost predicate Inv(c: Config, s: State) {
    CountersOk(s) && ErrorsOk(s) && RowsOk(c, s) && SlugsOk(c, s) && WinnersDiffer(c, s)
  }
}
