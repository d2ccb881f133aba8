/** What an import reports, whatever the workers' schedule. */
module CsvImportProofs {
  import opened Wrappers
  import opened Links
  import opened CsvImport

  // ---------- one row changes its status ----------

  lemma CountedMoved(s: State, s': State, i: RowNumber, st: Status, ok: bool)
    requires s'.status == s.status[i := st]
    ensures CountedRows(s', ok) == CountedRows(s, ok) - {i} + if Counted(st, ok) then {i} else {}
  {
  }

  lemma WonMoved(s: State, s': State, i: RowNumber, st: Status)
    requires s'.status == s.status[i := st]
    ensures WonRows(s') == WonRows(s) - {i} + if Won(st) then {i} else {}
  {
  }

  lemma BusyMoved(s: State, s': State, i: RowNumber, st: Status)
    requires s'.status == s.status[i := st]
    ensures InFlight(s') == InFlight(s) - {i} + if Busy(st) then {i} else {}
  {
  }

  lemma SizeOfMore<T>(s: set<T>, x: T)
    requires x !in s
    ensures |s + {x}| == |s| + 1
  {
  }

  // ---------- the counters ----------

  /** The counters depend on how many rows are counted and in flight. */
  predicate SameCounters(s: State, s': State) {
    && s'.created == s.created && s'.skipped == s.skipped && s'.errors == s.errors
    && CountedRows(s', true) == CountedRows(s, true) && CountedRows(s', false) == CountedRows(s, false)
  }

  lemma UncountedMove(s: State, s': State, i: RowNumber, st: Status)
    requires s'.status == s.status[i := st]
    requires s'.created == s.created && s'.skipped == s.skipped && s'.errors == s.errors
    requires forall ok :: Counted(st, ok) <==> i in CountedRows(s, ok)
    ensures SameCounters(s, s')
  {
    CountedMoved(s, s', i, st, true);
    CountedMoved(s, s', i, st, false);
  }

  lemma FewerInFlight(s: State, s': State, i: RowNumber, st: Status)
    requires s'.status == s.status[i := st] && |InFlight(s)| <= WORKERS
    requires Busy(st) ==> i in InFlight(s) || |InFlight(s)| < WORKERS
    ensures |InFlight(s')| <= WORKERS
  {
    BusyMoved(s, s', i, st);
    var rest := InFlight(s) - {i};
    if Busy(st) {
      SizeOfMore(rest, i);
      if i in InFlight(s) {
        assert rest + {i} == InFlight(s);
      }
    }
  }

  lemma LoopKeepsCounters(c: Config, s: State)
    requires CountersOk(s) && ErrorsOk(s) && RowsOk(c, s) && Enabled(c, s, Loop)
    ensures CountersOk(Apply(c, s, Loop)) && ErrorsOk(Apply(c, s, Loop))
  {
    var s' := Apply(c, s, Loop);
    assert s.next !in s.status;
    UncountedMove(s, s', s.next, s'.status[s.next]);
    FewerInFlight(s, s', s.next, s'.status[s.next]);
  }

  lemma CreateKeepsCounters(c: Config, s: State, i: RowNumber, g: string)
    requires CountersOk(s) && ErrorsOk(s) && Enabled(c, s, Create(i, g))
    ensures CountersOk(Apply(c, s, Create(i, g))) && ErrorsOk(Apply(c, s, Create(i, g)))
  {
    var s' := Apply(c, s, Create(i, g));
    UncountedMove(s, s', i, s'.status[i]);
    FewerInFlight(s, s', i, s'.status[i]);
  }

  lemma ReleaseKeepsCounters(c: Config, s: State, i: RowNumber)
    requires CountersOk(s) && ErrorsOk(s) && Enabled(c, s, Release(i))
    ensures CountersOk(Apply(c, s, Release(i))) && ErrorsOk(Apply(c, s, Release(i)))
  {
    var s' := Apply(c, s, Release(i));
    UncountedMove(s, s', i, s'.status[i]);
    FewerInFlight(s, s', i, s'.status[i]);
  }

  lemma ReportCounts(s: State, s': State, i: RowNumber, ok: bool)
    requires i in s.status && s.status[i] == Reporting(ok) && s'.status == s.status[i := Releasing(ok)]
    ensures i !in CountedRows(s, ok)
    ensures CountedRows(s', ok) == CountedRows(s, ok) + {i} && CountedRows(s', !ok) == CountedRows(s, !ok)
  {
    CountedMoved(s, s', i, Releasing(ok), ok);
    CountedMoved(s, s', i, Releasing(ok), !ok);
  }

  lemma ReportKeepsErrors(c: Config, s: State, i: RowNumber)
    requires ErrorsOk(s) && Enabled(c, s, Report(i))
    ensures ErrorsOk(Apply(c, s, Report(i)))
  {
    var s' := Apply(c, s, Report(i));
    ReportCounts(s, s', i, s.status[i].ok);
    if !s.status[i].ok {
      OneMoreError(s, s', i);
    }
  }

  lemma ReportKeepsCounters(c: Config, s: State, i: RowNumber)
    requires CountersOk(s) && Enabled(c, s, Report(i))
    ensures CountersOk(Apply(c, s, Report(i)))
  {
    var s' := Apply(c, s, Report(i));
    var ok := s.status[i].ok;
    ReportCounts(s, s', i, ok);
    SizeOfMore(CountedRows(s, ok), i);
    FewerInFlight(s, s', i, Releasing(ok));
  }

  lemma OneMoreError(s: State, s': State, i: RowNumber)
    requires ErrorsOk(s) && i !in CountedRows(s, false)
    requires CountedRows(s', false) == CountedRows(s, false) + {i} && s'.errors == s.errors + [Line(i)]
    ensures ErrorsOk(s')
  {
    assert Line(i) !in s.errors;
    forall j: RowNumber ensures j in CountedRows(s', false) <==> Line(j) in s'.errors {
      assert Line(j) in s'.errors <==> Line(j) in s.errors || j == i;
    }
  }

  // ---------- rows that move without touching slugs ----------

  ghost predicate SlugSideOk(c: Config, s: State) {
    RowsOk(c, s) && SlugsOk(c, s) && WinnersDiffer(c, s)
  }

  lemma RowsMove(c: Config, s: State, s': State, i: RowNumber, st: Status)
    requires RowsOk(c, s) && i in s.status && !s.status[i].Skimmed? && !st.Skimmed?
    requires s'.status == s.status[i := st] && s'.next == s.next
    ensures RowsOk(c, s')
  {
  }

  lemma RowsGrow(c: Config, s: State, s': State, st: Status)
    requires RowsOk(c, s) && s.next < |c.rows| && (st.Skimmed? <==> c.rows[s.next].Blank?)
    requires s'.status == s.status[s.next := st] && s'.next == s.next + 1
    ensures RowsOk(c, s')
  {
  }

  lemma LoopKeepsRows(c: Config, s: State)
    requires RowsOk(c, s) && Enabled(c, s, Loop)
    ensures RowsOk(c, Apply(c, s, Loop))
  {
    RowsGrow(c, s, Apply(c, s, Loop), if c.rows[s.next].Blank? then Skimmed else Creating);
  }

  lemma NewRowHasNotWon(s: State, s': State, st: Status)
    requires s.next !in s.status && s'.status == s.status[s.next := st] && !Won(st)
    ensures WonRows(s') == WonRows(s)
  {
    WonMoved(s, s', s.next, st);
  }

  predicate Attempted(st: Status) {
    !st.Skimmed? && !st.Creating?
  }

  /** Rows move, slugs do not. */
  predicate SameSlugs(s: State, s': State) {
    && s'.taken == s.taken && s'.gained == s.gained && s'.plain == s.plain && s'.generated == s.generated
    && WonRows(s') == WonRows(s)
  }

  lemma SameSlugsKeep(c: Config, s: State, s': State)
    requires SlugSideOk(c, s) && RowsOk(c, s') && SameSlugs(s, s')
    requires forall j :: j in s'.status && Attempted(s'.status[j]) ==> j in s.status && Attempted(s.status[j])
    ensures SlugSideOk(c, s')
  {
    forall j | j in s'.status && Attempted(s'.status[j]) ensures Settled(c, s', j) {
      assert Settled(c, s, j);
      assert Won(s.status[j]) <==> j in WonRows(s);
      assert Won(s'.status[j]) <==> j in WonRows(s');
    }
  }

  lemma LoopKeepsSlugs(c: Config, s: State)
    requires SlugSideOk(c, s) && Enabled(c, s, Loop)
    ensures SlugSideOk(c, Apply(c, s, Loop))
  {
    LoopKeepsRows(c, s);
    NewRowHasNotWon(s, Apply(c, s, Loop), if c.rows[s.next].Blank? then Skimmed else Creating);
    SameSlugsKeep(c, s, Apply(c, s, Loop));
  }

  lemma MovedStaysWon(s: State, s': State, i: RowNumber, st: Status)
    requires i in s.status && s'.status == s.status[i := st] && Won(st) == Won(s.status[i])
    ensures WonRows(s') == WonRows(s)
  {
    WonMoved(s, s', i, st);
  }

  /** A row that has had its attempt moves on. */
  lemma SlugsKeep(c: Config, s: State, s': State, i: RowNumber, st: Status)
    requires SlugSideOk(c, s) && i in s.status && Attempted(s.status[i]) && Attempted(st)
    requires s'.status == s.status[i := st] && s'.next == s.next && Won(st) == Won(s.status[i])
    requires s'.taken == s.taken && s'.gained == s.gained && s'.plain == s.plain && s'.generated == s.generated
    ensures SlugSideOk(c, s')
  {
    RowsMove(c, s, s', i, st);
    MovedStaysWon(s, s', i, st);
    SameSlugsKeep(c, s, s');
  }

  // ---------- an attempt ----------

  /** Taking a slug settles this row and unsettles no other. */
  lemma OthersStaySettled(c: Config, s: State, s': State, i: RowNumber, j: RowNumber)
    requires j in s.status && j < |c.rows| && Settled(c, s, j) && j != i
    requires i in s'.status && s'.status == s.status[i := s'.status[i]]
    requires s.gained <= s'.gained && s.plain <= s'.plain
    ensures Settled(c, s', j)
  {
  }

  lemma AttemptSettles(c: Config, s: State, i: RowNumber, g: string)
    requires SlugSideOk(c, s) && Enabled(c, s, Create(i, g))
    ensures Settled(c, Apply(c, s, Create(i, g)), i)
  {
    assert SlugOf(c, i) !in s.generated;
  }

  lemma CreateKeepsSettled(c: Config, s: State, i: RowNumber, g: string)
    requires SlugSideOk(c, s) && Enabled(c, s, Create(i, g))
    ensures var s' := Apply(c, s, Create(i, g));
            forall j :: j in s'.status && j < |c.rows| && !s'.status[j].Skimmed? && !s'.status[j].Creating? ==>
              Settled(c, s', j)
  {
    var s' := Apply(c, s, Create(i, g));
    AttemptSettles(c, s, i, g);
    forall j | j in s'.status && j < |c.rows| && !s'.status[j].Skimmed? && !s'.status[j].Creating?
      ensures Settled(c, s', j)
    {
      if j != i {
        assert s'.status[j] == s.status[j];
        OthersStaySettled(c, s, s', i, j);
      }
    }
  }

  lemma SettledWinnersTook(c: Config, s: State)
    requires SlugSideOk(c, s)
    ensures forall j :: j in WonRows(s) && SlugOf(c, j) != "" ==> SlugOf(c, j) in s.taken
  {
    forall j | j in WonRows(s) && SlugOf(c, j) != "" ensures SlugOf(c, j) in s.taken {
      assert Settled(c, s, j);
    }
  }

  lemma CreateKeepsWinners(c: Config, s: State, i: RowNumber, g: string)
    requires SlugSideOk(c, s) && Enabled(c, s, Create(i, g)) && RowsOk(c, Apply(c, s, Create(i, g)))
    ensures WinnersDiffer(c, Apply(c, s, Create(i, g)))
  {
    var s' := Apply(c, s, Create(i, g));
    CreateWins(c, s, i, g);
    SettledWinnersTook(c, s);
    NewWinnerDiffers(c, s, s', i);
  }

  lemma NewWinnerDiffers(c: Config, s: State, s': State, i: RowNumber)
    requires RowsOk(c, s) && RowsOk(c, s') && WinnersDiffer(c, s) && WonRows(s') <= WonRows(s) + {i} && i in s.status
    requires forall j :: j in WonRows(s) && SlugOf(c, j) != "" ==> SlugOf(c, j) in s.taken
    requires i in WonRows(s') && SlugOf(c, i) != "" ==> SlugOf(c, i) !in s.taken
    ensures WinnersDiffer(c, s')
  {
  }

  lemma CreateWins(c: Config, s: State, i: RowNumber, g: string)
    requires RowsOk(c, s) && Enabled(c, s, Create(i, g))
    ensures i !in WonRows(s)
    ensures WonRows(Apply(c, s, Create(i, g))) == if Succeeds(c, s, i) then WonRows(s) + {i} else WonRows(s)
  {
    var s' := Apply(c, s, Create(i, g));
    WonMoved(s, s', i, s'.status[i]);
  }

  lemma PlusOne(gained: set<string>, plain: set<RowNumber>, won: set<RowNumber>, slug: string, i: RowNumber)
    requires |gained| + |plain| == |won| && plain <= won && i !in won
    ensures |gained| + |plain + {i}| == |won + {i}| && plain + {i} <= won + {i}
    ensures slug !in gained ==> |gained + {slug}| + |plain| == |won + {i}| && plain <= won + {i}
  {
    SizeOfMore(won, i);
    SizeOfMore(plain, i);
    if slug !in gained {
      SizeOfMore(gained, slug);
    }
  }

  /** One success more is one slug or one plain row more. */
  lemma CreateKeepsSum(c: Config, s: State, i: RowNumber, g: string)
    requires RowsOk(c, s) && SlugsOk(c, s) && Enabled(c, s, Create(i, g))
    ensures var s' := Apply(c, s, Create(i, g)); |s'.gained| + |s'.plain| == |WonRows(s')| && s'.plain <= WonRows(s')
  {
    CreateWins(c, s, i, g);
    PlusOne(s.gained, s.plain, WonRows(s), SlugOf(c, i), i);
  }

  lemma CreateTakesWanted(c: Config, s: State, i: RowNumber, g: string)
    requires RowsOk(c, s) && SlugsOk(c, s) && Enabled(c, s, Create(i, g))
    ensures var s' := Apply(c, s, Create(i, g)); s'.gained <= WantedSlugs(c) && s'.plain <= PlainRows(c)
  {
    if Succeeds(c, s, i) {
      if SlugOf(c, i) != "" {
        assert SlugOf(c, i) in WantedSlugs(c);
      } else {
        assert i in PlainRows(c);
      }
    }
  }

  lemma OneMoreGained(base: set<string>, gained: set<string>, generated: set<string>, x: string)
    ensures base + gained + generated + {x} == base + (gained + {x}) + generated
  {
  }

  lemma OneMoreGenerated(base: set<string>, gained: set<string>, generated: set<string>, x: string)
    ensures base + gained + generated + {x} == base + gained + (generated + {x})
  {
  }

  lemma CreateKeepsTaken(c: Config, s: State, i: RowNumber, g: string)
    requires RowsOk(c, s) && SlugsOk(c, s) && Enabled(c, s, Create(i, g))
    ensures var s' := Apply(c, s, Create(i, g));
            s'.taken == c.taken + s'.gained + s'.generated && forall x :: x in s'.generated ==> Unasked(c, x)
  {
    if SlugOf(c, i) == "" {
      OneMoreGenerated(c.taken, s.gained, s.generated, g);
    } else {
      OneMoreGained(c.taken, s.gained, s.generated, SlugOf(c, i));
    }
  }

  lemma CreateKeepsRows(c: Config, s: State, i: RowNumber, g: string)
    requires RowsOk(c, s) && Enabled(c, s, Create(i, g))
    ensures RowsOk(c, Apply(c, s, Create(i, g)))
  {
    RowsMove(c, s, Apply(c, s, Create(i, g)), i, Reporting(Succeeds(c, s, i)));
  }

  lemma SlugsOkParts(c: Config, s: State)
    requires RowsOk(c, s)
    requires s.taken == c.taken + s.gained + s.generated && s.gained <= WantedSlugs(c) && s.plain <= PlainRows(c)
    requires s.plain <= WonRows(s) && |s.gained| + |s.plain| == |WonRows(s)|
    requires forall g :: g in s.generated ==> Unasked(c, g)
    requires forall j :: j in s.status && j < |c.rows| && !s.status[j].Skimmed? && !s.status[j].Creating? ==>
            Settled(c, s, j)
    ensures SlugsOk(c, s)
  {
  }

  lemma CreateKeepsSlugs(c: Config, s: State, i: RowNumber, g: string)
    requires SlugSideOk(c, s) && Enabled(c, s, Create(i, g))
    ensures SlugSideOk(c, Apply(c, s, Create(i, g)))
  {
    CreateKeepsRows(c, s, i, g);
    CreateKeepsSettled(c, s, i, g);
    CreateKeepsSum(c, s, i, g);
    CreateTakesWanted(c, s, i, g);
    CreateKeepsTaken(c, s, i, g);
    SlugsOkParts(c, Apply(c, s, Create(i, g)));
    CreateKeepsWinners(c, s, i, g);
  }

  lemma LoopKeepsInv(c: Config, s: State)
    requires Inv(c, s) && Enabled(c, s, Loop)
    ensures Inv(c, Apply(c, s, Loop))
  {
    LoopKeepsCounters(c, s);
    LoopKeepsSlugs(c, s);
  }

  lemma CreateKeepsInv(c: Config, s: State, i: RowNumber, g: string)
    requires Inv(c, s) && Enabled(c, s, Create(i, g))
    ensures Inv(c, Apply(c, s, Create(i, g)))
  {
    CreateKeepsCounters(c, s, i, g);
    CreateKeepsSlugs(c, s, i, g);
  }

  lemma ReportKeepsInv(c: Config, s: State, i: RowNumber)
    requires Inv(c, s) && Enabled(c, s, Report(i))
    ensures Inv(c, Apply(c, s, Report(i)))
  {
    ReportKeepsCounters(c, s, i);
    ReportKeepsErrors(c, s, i);
    SlugsKeep(c, s, Apply(c, s, Report(i)), i, Releasing(s.status[i].ok));
  }

  lemma ReleaseKeepsInv(c: Config, s: State, i: RowNumber)
    requires Inv(c, s) && Enabled(c, s, Release(i))
    ensures Inv(c, Apply(c, s, Release(i)))
  {
    ReleaseKeepsCounters(c, s, i);
    SlugsKeep(c, s, Apply(c, s, Release(i)), i, Finished(s.status[i].ok));
  }

  lemma StepKeepsInv(c: Config, s: State, e: Event)
    requires Inv(c, s) && Enabled(c, s, e)
    ensures Inv(c, Apply(c, s, e))
  {
    match e
    case Loop => LoopKeepsInv(c, s);
    case Create(i, g) => CreateKeepsInv(c, s, i, g);
    case Report(i) => ReportKeepsInv(c, s, i);
    case Release(i) => ReleaseKeepsInv(c, s, i);
  }

  lemma {:induction false} AlwaysInv(c: Config, es: seq<Event>)
    requires Possible(c, es)
    ensures Inv(c, After(c, es))
  {
    if es == [] {
      assert InFlight(Init(c)) == {} && WonRows(Init(c)) == {};
      assert forall ok :: CountedRows(Init(c), ok) == {};
    } else {
      AlwaysInv(c, es[..|es| - 1]);
      StepKeepsInv(c, After(c, es[..|es| - 1]), es[|es| - 1]);
    }
  }

  // ---------- the totals ----------

  function BlankRows(c: Config): set<RowNumber> {
    set i: RowNumber | 0 <= i < |c.rows| && c.rows[i].Blank?
  }

  function AllRows(n: nat): (s: set<RowNumber>)
    ensures |s| == n && forall i: RowNumber :: i in s <==> i < n
  {
    if n == 0 then {} else AllRows(n - 1) + {n - 1}
  }

  lemma AtMostTenInFlight(c: Config, es: seq<Event>)
    requires Possible(c, es)
    ensures |InFlight(After(c, es))| <= WORKERS
  {
    AlwaysInv(c, es);
  }

  lemma {:induction false} ErrorsAreOfRows(c: Config, es: seq<Event>, line: int)
    requires Possible(c, es) && line in After(c, es).errors
    ensures line >= 2
  {
    if line in After(c, es[..|es| - 1]).errors {
      ErrorsAreOfRows(c, es[..|es| - 1], line);
    }
  }

  /** The lines of the error report are those of the skipped rows, the header being line 1. */
  lemma ErrorsNameTheLines(c: Config, es: seq<Event>, line: int)
    requires Possible(c, es) && Complete(c, After(c, es))
    ensures var s := After(c, es);
            line in s.errors <==> line >= 2 && line - 2 in s.status && s.status[line - 2] == Finished(false)
  {
    var s := After(c, es);
    AlwaysInv(c, es);
    if line in s.errors {
      ErrorsAreOfRows(c, es, line);
    }
    if line >= 2 {
      var i: RowNumber := line - 2;
      assert Line(i) == line && (i in CountedRows(s, false) <==> Line(i) in s.errors);
    }
  }

  /** Every row is created, skipped or blank; each skipped row has its one error line. */
  lemma TotalsAddUp(c: Config, es: seq<Event>)
    requires Possible(c, es) && Complete(c, After(c, es))
    ensures var s := After(c, es);
            && s.created + s.skipped + |BlankRows(c)| == |c.rows|
            && |s.errors| == s.skipped
            && (forall j, k :: 0 <= j < k < |s.errors| ==> s.errors[j] != s.errors[k])
            && (forall i: RowNumber :: Line(i) in s.errors <==> i in s.status && s.status[i] == Finished(false))
  {
    var s := After(c, es);
    AlwaysInv(c, es);
    RowsArePartitioned(c, s, AllRows(|c.rows|));
    DisjointSizes(CountedRows(s, true), CountedRows(s, false), BlankRows(c), AllRows(|c.rows|));
  }

  lemma RowsArePartitioned(c: Config, s: State, all: set<RowNumber>)
    requires RowsOk(c, s) && Complete(c, s) && forall i: RowNumber :: i in all <==> i < |c.rows|
    ensures CountedRows(s, true) + CountedRows(s, false) + BlankRows(c) == all
    ensures CountedRows(s, true) !! CountedRows(s, false) !! BlankRows(c)
  {
  }

  lemma DisjointSizes<T>(a: set<T>, b: set<T>, d: set<T>, all: set<T>)
    requires a !! b !! d && a + b + d == all
    ensures |a| + |b| + |d| == |all|
  {
    assert |a + b| == |a| + |b|;
    assert |(a + b) + d| == |a + b| + |d|;
  }

  lemma EveryWantedIsGained(c: Config, s: State)
    requires Inv(c, s) && Complete(c, s)
    ensures s.gained == WantedSlugs(c)
  {
    forall slug | slug in WantedSlugs(c) ensures slug in s.gained {
      var i :| 0 <= i < |c.rows| && Acceptable(c, i) && SlugOf(c, i) != "" && SlugOf(c, i) !in c.taken
        && SlugOf(c, i) == slug;
      assert Settled(c, s, i);
    }
  }

  lemma EveryPlainIsKept(c: Config, s: State)
    requires Inv(c, s) && Complete(c, s)
    ensures s.plain == PlainRows(c)
  {
    forall i | i in PlainRows(c) ensures i in s.plain {
      assert Settled(c, s, i);
    }
  }

  /** The number created does not depend on the schedule: every new valid slug once, and every acceptable row
      that leaves its slug open. */
  lemma CreatedIsScheduleIndependent(c: Config, es: seq<Event>)
    requires Possible(c, es) && Complete(c, After(c, es))
    ensures After(c, es).created == |WantedSlugs(c)| + |PlainRows(c)|
  {
    var s := After(c, es);
    AlwaysInv(c, es);
    assert CountedRows(s, true) == WonRows(s);
    EveryWantedIsGained(c, s);
    EveryPlainIsKept(c, s);
  }

  /** And no two rows of one import are ever both created with the same custom slug. */
  lemma OneRowPerSlug(c: Config, es: seq<Event>, i: RowNumber, j: RowNumber)
    requires Possible(c, es) && i < j < |c.rows| && SlugOf(c, i) == SlugOf(c, j) != ""
    ensures !(i in WonRows(After(c, es)) && j in WonRows(After(c, es)))
  {
    AlwaysInv(c, es);
  }

  // ---------- which columns are read ----------

  ghost predicate IsHeader(headers: seq<string>, i: nat, name: string) {
    i < |headers| && ToLower(Trim(headers[i])) == name
  }

  const TARGET_NAMES: seq<string> := ["url", "target_url", "destination"]
  const SLUG_NAMES: seq<string> := ["slug", "custom_slug"]

  /** The column is the last one under the first of these names that heads any; or there is none. */
  ghost predicate HeadedBy(headers: seq<string>, names: seq<string>, column: Option<nat>) {
    if names == [] then column == None
    else if exists i: nat :: IsHeader(headers, i, names[0]) then
      column.Some? && IsHeader(headers, column.value, names[0])
      && forall i: nat :: IsHeader(headers, i, names[0]) ==> i <= column.value
    else HeadedBy(headers, names[1..], column)
  }

  lemma ColumnIsHeaded(headers: seq<string>, name: string)
    ensures ColumnOf(headers, name).Some? <==> exists i: nat :: IsHeader(headers, i, name)
    ensures ColumnOf(headers, name).Some? ==>
              && IsHeader(headers, ColumnOf(headers, name).value, name)
              && forall i: nat :: IsHeader(headers, i, name) ==> i <= ColumnOf(headers, name).value
  {
    var column := ColumnOf(headers, name);
    forall i: nat | IsHeader(headers, i, name) ensures column.Some? && i <= column.value {
    }
    if column.Some? {
      assert IsHeader(headers, column.value, name);
    }
  }

  lemma OneNameMore(headers: seq<string>, name: string, rest: seq<string>, column: Option<nat>)
    requires HeadedBy(headers, rest, column)
    ensures HeadedBy(headers, [name] + rest, Either(ColumnOf(headers, name), column))
  {
    ColumnIsHeaded(headers, name);
    assert ([name] + rest)[1..] == rest;
  }

  lemma TargetIsHeaded(headers: seq<string>)
    ensures HeadedBy(headers, TARGET_NAMES, UrlColumn(headers))
  {
    OneNameMore(headers, "destination", [], None);
    OneNameMore(headers, "target_url", ["destination"], ColumnOf(headers, "destination"));
    OneNameMore(headers, "url", ["target_url", "destination"],
                Either(ColumnOf(headers, "target_url"), ColumnOf(headers, "destination")));
    assert ["destination"] + [] == ["destination"];
    assert ["target_url"] + ["destination"] == ["target_url", "destination"];
    assert ["url"] + ["target_url", "destination"] == TARGET_NAMES;
  }

  lemma SlugIsHeaded(headers: seq<string>)
    ensures HeadedBy(headers, SLUG_NAMES, SlugColumn(headers))
  {
    OneNameMore(headers, "custom_slug", [], None);
    OneNameMore(headers, "slug", ["custom_slug"], ColumnOf(headers, "custom_slug"));
    assert ["custom_slug"] + [] == ["custom_slug"];
    assert ["slug"] + ["custom_slug"] == SLUG_NAMES;
  }

  /** What the import takes from a field: nothing where the row is too short. */
  function FieldAt(fields: seq<string>, column: Option<nat>): string {
    if column.Some? && column.value < |fields| then Trim(fields[column.value]) else ""
  }

  /** A row without a target is passed over; any other asks for a link under the slug it has, or leaves it open. */
  function RowAsked(fields: seq<string>, url: Option<nat>, slug: Option<nat>, refused: bool): Row {
    var target, asked := FieldAt(fields, url), FieldAt(fields, slug);
    if target == "" then Blank else Asks(asked, !refused && (asked == "" || Storable(asked)))
  }

  /** An import fails as a whole exactly when there is no data row or no header names the target. Otherwise each row
      is read by the columns that the headers name for target and slug. */
  lemma RowsAreRead(records: seq<seq<string>>, refused: set<RowNumber>, taken: set<string>, url: Option<nat>,
                    slug: Option<nat>, i: RowNumber)
    requires records != [] && HeadedBy(records[0], TARGET_NAMES, url) && HeadedBy(records[0], SLUG_NAMES, slug)
    ensures Plan(records, refused, taken).Some? <==> |records| >= 2 && url.Some?
    ensures Plan(records, refused, taken).Some? && i + 1 < |records| ==>
              var rows := Plan(records, refused, taken).value.rows;
              i < |rows| && rows[i] == RowAsked(records[i + 1], url, slug, i in refused)
  {
    ReadByColumns(records[0], url, slug);
    PlanIsRead(records, url, slug, refused, taken, i);
  }

  lemma PlanIsRead(records: seq<seq<string>>, url: Option<nat>, slug: Option<nat>, refused: set<RowNumber>,
                   taken: set<string>, i: RowNumber)
    ensures var plan := PlanBy(records, url, slug, refused, taken);
            && (plan.Some? <==> |records| >= 2 && url.Some?)
            && (plan.Some? && i + 1 < |records| ==>
                  i < |plan.value.rows| && plan.value.rows[i] == RowAsked(records[i + 1], url, slug, i in refused))
  {
    if url.Some? && i + 1 < |records| {
      RowIsRead(records[i + 1], url.value, slug, i in refused);
    }
  }

  lemma ReadByColumns(headers: seq<string>, url: Option<nat>, slug: Option<nat>)
    requires HeadedBy(headers, TARGET_NAMES, url) && HeadedBy(headers, SLUG_NAMES, slug)
    ensures url == UrlColumn(headers) && slug == SlugColumn(headers)
  {
    TargetIsHeaded(headers);
    SlugIsHeaded(headers);
    HeadsAreUnique(headers, TARGET_NAMES, url, UrlColumn(headers));
    HeadsAreUnique(headers, SLUG_NAMES, slug, SlugColumn(headers));
  }

  lemma RowIsRead(fields: seq<string>, url: nat, slug: Option<nat>, refused: bool)
    ensures ReadRow(fields, url, slug, refused) == RowAsked(fields, Some(url), slug, refused)
  {
  }

  lemma {:induction false} HeadsAreUnique(headers: seq<string>, names: seq<string>, a: Option<nat>, b: Option<nat>)
    requires HeadedBy(headers, names, a) && HeadedBy(headers, names, b)
    ensures a == b
  {
    if names != [] && !(exists i: nat :: IsHeader(headers, i, names[0])) {
      HeadsAreUnique(headers, names[1..], a, b);
    }
  }

  // ---------- of a file ----------

  /** The data rows that ask for nothing. */
  function BlankLines(data: seq<seq<string>>, urlColumn: nat): set<RowNumber> {
    set i: RowNumber | 0 <= i < |data| && (|data[i]| <= urlColumn || Trim(data[i][urlColumn]) == "")
  }

  /** The report on a file: what is created, skipped or blank makes up its data rows, and the number created is
      the same in every run. */
  lemma ReportOnFile(records: seq<seq<string>>, refused: set<RowNumber>, taken: set<string>, es: seq<Event>)
    requires Plan(records, refused, taken).Some?
    requires var c := Plan(records, refused, taken).value; Possible(c, es) && Complete(c, After(c, es))
    ensures var c := Plan(records, refused, taken).value;
            var s := After(c, es);
            && s.created + s.skipped + |BlankLines(records[1..], UrlColumn(records[0]).value)| == |records| - 1
            && s.created == |WantedSlugs(c)| + |PlainRows(c)|
            && |s.errors| == s.skipped
  {
    var c := Plan(records, refused, taken).value;
    TotalsAddUp(c, es);
    CreatedIsScheduleIndependent(c, es);
    assert forall i :: 0 <= i < |records| - 1 ==> records[1..][i] == records[i + 1];
    assert BlankRows(c) == BlankLines(records[1..], UrlColumn(records[0]).value);
  }

  // ---------- no deadlock ----------

  lemma {:induction false} LongerThanAll(taken: set<string>) returns (g: string)
    ensures forall x :: x in taken ==> |x| < |g|
    decreases |taken|
  {
    g := "a";
    if taken != {} {
      var x :| x in taken;
      var h := LongerThanAll(taken - {x});
      g := h + x + "a";
      forall y | y in taken ensures |y| < |g| {
        assert y == x || y in taken - {x};
      }
    }
  }

  lemma FreshSlug(c: Config, s: State) returns (g: string)
    ensures g !in s.taken && Unasked(c, g)
  {
    var asked := set j | 0 <= j < |c.rows| :: SlugOf(c, j);
    g := LongerThanAll(s.taken + asked);
    assert g !in s.taken + asked;
    forall j | 0 <= j < |c.rows| ensures SlugOf(c, j) != g {
      assert SlugOf(c, j) in asked;
    }
  }

  lemma NextMove(c: Config, s: State) returns (e: Event)
    requires RowsOk(c, s) && !Complete(c, s)
    ensures Enabled(c, s, e)
  {
    if s.next < |c.rows| && (c.rows[s.next].Blank? || |InFlight(s)| < WORKERS) {
      e := Loop;
    } else {
      var i := BusyRow(c, s);
      if s.status[i].Creating? {
        var g := FreshSlug(c, s);
        e := Create(i, g);
      } else if s.status[i].Reporting? {
        e := Report(i);
      } else {
        e := Release(i);
      }
    }
  }

  /** Until the import is complete the loop or some worker can go on: waiting for a place never blocks for good. */
  lemma SomeoneCanMove(c: Config, es: seq<Event>) returns (e: Event)
    requires Possible(c, es) && !Complete(c, After(c, es))
    ensures Possible(c, es + [e])
  {
    AlwaysInv(c, es);
    e := NextMove(c, After(c, es));
    assert (es + [e])[..|es + [e]| - 1] == es;
  }

  lemma BusyRow(c: Config, s: State) returns (i: RowNumber)
    requires RowsOk(c, s) && !Complete(c, s) && (s.next < |c.rows| ==> |InFlight(s)| >= WORKERS)
    ensures i in s.status && Busy(s.status[i]) && i < |c.rows|
  {
    if s.next < |c.rows| {
      assert InFlight(s) != {};
      i :| i in InFlight(s);
    } else {
      i :| i in s.status && !s.status[i].Skimmed? && !s.status[i].Finished?;
    }
  }
}
