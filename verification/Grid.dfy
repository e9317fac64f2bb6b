/**
 The test grid of cmd/aggregate-junit: cells that join the results of all files of a run,
 and the counts by test and by run. XML parsing is an input: a file is its list of cases,
 or nothing when it does not parse. Pass rates are exact (real) numbers.
 */
module Grid {
  import opened Wrappers
  import opened Seqs

  datatype Result = Missing | Skip | Pass | Fail | Error

  /** The order of the source's iota constants. */
  function Rank(r: Result): nat {
    match r
    case Missing => 0
    case Skip => 1
    case Pass => 2
    case Fail => 3
    case Error => 4
  }

  datatype TestCase = TestCase(name: string, failure: bool, skipped: bool, error: bool)

  datatype Run = Run(name: string, files: seq<Option<seq<TestCase>>>)

  /** An error hides a failure, and a failure hides a skip. */
  function Classify(tc: TestCase): (r: Result)
    ensures r != Missing
    ensures r == Error <==> tc.error
    ensures r == Fail <==> tc.failure && !tc.error
    ensures r == Skip <==> tc.skipped && !tc.failure && !tc.error
  {
    if tc.error then Error else if tc.failure then Fail else if tc.skipped then Skip else Pass
  }

  type Matrix = map<string, map<string, Result>>

  datatype RunSummary = RunSummary(pass: nat, fail: nat, skip: nat, error: nat, missing: nat, total: nat)

  datatype GridData = GridData(
    runs: seq<string>, tests: seq<string>, matrix: Matrix, passRates: map<string, real>,
    runTotals: map<string, RunSummary>)

  function Cell(m: Matrix, test: string, run: string): Result {
    if test in m && run in m[test] then m[test][run] else Missing
  }

  // ---------------------------------------------------------------- what is observed

  datatype Observation = Observation(test: string, run: string, result: Result)

  function CaseObservations(run: string, cases: seq<TestCase>): seq<Observation> {
    seq(|cases|, i requires 0 <= i < |cases| => Observation(cases[i].name, run, Classify(cases[i])))
  }

  function FileObservations(run: string, files: seq<Option<seq<TestCase>>>): seq<Observation> {
    if files == [] then []
    else
      var n := |files| - 1;
      FileObservations(run, files[..n]) + (if files[n].None? then [] else CaseObservations(run, files[n].value))
  }

  function Observations(runs: seq<Run>): seq<Observation> {
    if runs == [] then []
    else
      var n := |runs| - 1;
      Observations(runs[..n]) + FileObservations(runs[n].name, runs[n].files)
  }

  function Record(m: Matrix, o: Observation): Matrix {
    var row := if o.test in m then m[o.test] else map[];
    if o.run !in row || Rank(o.result) > Rank(row[o.run]) then m[o.test := row[o.run := o.result]] else m
  }

  function Fill(obs: seq<Observation>): Matrix {
    if obs == [] then map[] else Record(Fill(obs[..|obs| - 1]), obs[|obs| - 1])
  }

  // ---------------------------------------------------------------- counts

  function Count(rs: seq<Result>, r: Result): nat {
    if rs == [] then 0 else Count(rs[..|rs| - 1], r) + if rs[|rs| - 1] == r then 1 else 0
  }

  function Row(m: Matrix, test: string, runs: seq<string>): seq<Result> {
    seq(|runs|, i requires 0 <= i < |runs| => Cell(m, test, runs[i]))
  }

  function Column(m: Matrix, tests: seq<string>, run: string): seq<Result> {
    seq(|tests|, i requires 0 <= i < |tests| => Cell(m, tests[i], run))
  }

  /** Skipped and missing runs do not count towards the rate. */
  function Counted(rs: seq<Result>): nat {
    Count(rs, Pass) + Count(rs, Fail) + Count(rs, Error)
  }

  function Rate(rs: seq<Result>): real
    requires Counted(rs) > 0
  {
    Count(rs, Pass) as real / Counted(rs) as real * 100.0
  }

  function Summarize(rs: seq<Result>): RunSummary {
    RunSummary(Count(rs, Pass), Count(rs, Fail), Count(rs, Skip), Count(rs, Error), Count(rs, Missing), |rs|)
  }

  // ---------------------------------------------------------------- building the grid

  method FillMatrix(runs: seq<Run>) returns (names: seq<string>, matrix: Matrix, testSet: set<string>)
    ensures names == seq(|runs|, i requires 0 <= i < |runs| => runs[i].name)
    ensures matrix == Fill(Observations(runs)) && testSet == matrix.Keys
  {
    names, matrix, testSet := [], map[], {};
    for i := 0 to |runs|
      invariant names == seq(i, k requires 0 <= k < i => runs[k].name)
      invariant matrix == Fill(Observations(runs[..i])) && testSet == matrix.Keys
    {
      assert runs[..i + 1][..i] == runs[..i];
      names := names + [runs[i].name];
      matrix, testSet := AddRun(matrix, testSet, runs[i], Observations(runs[..i]));
    }
    assert runs[..|runs|] == runs;
  }

  method AddRun(before: Matrix, tests: set<string>, run: Run, ghost obs: seq<Observation>)
    returns (matrix: Matrix, testSet: set<string>)
    requires before == Fill(obs) && tests == before.Keys
    ensures matrix == Fill(obs + FileObservations(run.name, run.files)) && testSet == matrix.Keys
  {
    hide Fill, FileObservations, CaseObservations;
    matrix, testSet := before, tests;
    OneMoreFile(obs, run.name, run.files, 0);
    for j := 0 to |run.files|
      invariant matrix == Fill(obs + FileObservations(run.name, run.files[..j])) && testSet == matrix.Keys
    {
      OneMoreFile(obs, run.name, run.files, j);
      if run.files[j].None? {
        continue;
      }
      matrix, testSet := AddCases(matrix, testSet, run.name, run.files[j].value,
        obs + FileObservations(run.name, run.files[..j]));
    }
    assert run.files[..|run.files|] == run.files;
  }

  method AddCases(before: Matrix, tests: set<string>, runName: string, cases: seq<TestCase>,
      ghost obs: seq<Observation>)
    returns (matrix: Matrix, testSet: set<string>)
    requires before == Fill(obs) && tests == before.Keys
    ensures matrix == Fill(obs + CaseObservations(runName, cases)) && testSet == matrix.Keys
  {
    hide Fill, CaseObservations;
    matrix, testSet := before, tests;
    OneMoreCase(obs, runName, cases, 0);
    for k := 0 to |cases|
      invariant matrix == Fill(obs + CaseObservations(runName, cases[..k])) && testSet == matrix.Keys
    {
      var tc := cases[k];
      var result := Classify(tc);
      OneMoreCase(obs, runName, cases, k);
      FillOneMore(obs + CaseObservations(runName, cases[..k]), Observation(tc.name, runName, result));
      testSet := testSet + {tc.name};
      if tc.name !in matrix {
        matrix := matrix[tc.name := map[]];
      }
      if runName !in matrix[tc.name] || Rank(result) > Rank(matrix[tc.name][runName]) {
        matrix := matrix[tc.name := matrix[tc.name][runName := result]];
      }
    }
    assert cases[..|cases|] == cases;
  }

  lemma OneMoreFile(obs: seq<Observation>, run: string, files: seq<Option<seq<TestCase>>>, j: nat)
    requires j <= |files|
    ensures obs + FileObservations(run, files[..0]) == obs
    ensures j < |files| ==>
      var before := obs + FileObservations(run, files[..j]);
      obs + FileObservations(run, files[..j + 1])
        == if files[j].None? then before else before + CaseObservations(run, files[j].value)
  {
    hide CaseObservations;
    if j < |files| { assert files[..j + 1][..j] == files[..j]; }
  }

  lemma OneMoreCase(obs: seq<Observation>, run: string, cases: seq<TestCase>, k: nat)
    requires k <= |cases|
    ensures obs + CaseObservations(run, cases[..0]) == obs
    ensures k < |cases| ==>
      var before := obs + CaseObservations(run, cases[..k]);
      obs + CaseObservations(run, cases[..k + 1]) == before + [Observation(cases[k].name, run, Classify(cases[k]))]
  {
    if k < |cases| {
      assert CaseObservations(run, cases[..k + 1]) ==
        CaseObservations(run, cases[..k]) + [Observation(cases[k].name, run, Classify(cases[k]))];
    }
  }

  lemma FillOneMore(obs: seq<Observation>, o: Observation)
    ensures Fill(obs + [o]) == Record(Fill(obs), o)
  {
    assert (obs + [o])[..|obs|] == obs;
  }

  method CountRow(m: Matrix, test: string, runs: seq<string>) returns (passed: nat, total: nat)
    ensures passed == Count(Row(m, test, runs), Pass) && total == Counted(Row(m, test, runs))
  {
    passed, total := 0, 0;
    for i := 0 to |runs|
      invariant passed == Count(Row(m, test, runs[..i]), Pass) && total == Counted(Row(m, test, runs[..i]))
    {
      assert Row(m, test, runs[..i + 1])[..i] == Row(m, test, runs[..i]);
      var r := Cell(m, test, runs[i]);
      if r == Pass || r == Fail || r == Error {
        total := total + 1;
        if r == Pass {
          passed := passed + 1;
        }
      }
    }
    assert runs[..|runs|] == runs;
  }

  method CountColumn(m: Matrix, tests: seq<string>, run: string) returns (summary: RunSummary)
    ensures summary == Summarize(Column(m, tests, run))
  {
    summary := RunSummary(0, 0, 0, 0, 0, 0);
    for i := 0 to |tests|
      invariant summary == Summarize(Column(m, tests[..i], run))
    {
      assert Column(m, tests[..i + 1], run)[..i] == Column(m, tests[..i], run);
      summary := summary.(total := summary.total + 1);
      match Cell(m, tests[i], run)
      case Pass => summary := summary.(pass := summary.pass + 1);
      case Fail => summary := summary.(fail := summary.fail + 1);
      case Skip => summary := summary.(skip := summary.skip + 1);
      case Error => summary := summary.(error := summary.error + 1);
      case Missing => summary := summary.(missing := summary.missing + 1);
    }
    assert tests[..|tests|] == tests;
  }

  /** The tests come in some order; the sort only fixes which. */
  method ListTests(testSet: set<string>) returns (tests: seq<string>)
    ensures Distinct(tests) && (set t | t in tests) == testSet && |tests| == |testSet|
  {
    tests := [];
    var left := testSet;
    while left != {}
      invariant left <= testSet && Distinct(tests) && |tests| + |left| == |testSet|
      invariant forall t :: t in tests <==> t in testSet && t !in left
    {
      var t :| t in left;
      tests, left := tests + [t], left - {t};
    }
  }

  // What the figures are, by result name.

  /** The positions of the runs in which the test has this result. */
  ghost function RunsWith(m: Matrix, test: string, runs: seq<string>, r: Result): set<nat> {
    set i: nat | i < |runs| && Cell(m, test, runs[i]) == r
  }

  /** The positions of the tests that have this result in the run. */
  ghost function TestsWith(m: Matrix, tests: seq<string>, run: string, r: Result): set<nat> {
    set i: nat | i < |tests| && Cell(m, tests[i], run) == r
  }

  /** The rate is the share of passes among passes, failures and errors, in percent; there is none without any. */
  ghost predicate RateSays(grid: GridData, t: string) {
    var passed := |RunsWith(grid.matrix, t, grid.runs, Pass)|;
    var all := passed + |RunsWith(grid.matrix, t, grid.runs, Fail)| + |RunsWith(grid.matrix, t, grid.runs, Error)|;
    && (t in grid.passRates <==> t in grid.tests && all > 0)
    && (t in grid.passRates ==> grid.passRates[t] * all as real == 100.0 * passed as real)
  }

  ghost predicate TotalsSay(grid: GridData, run: string) {
    run in grid.runTotals ==>
      var s := grid.runTotals[run];
      && s.pass == |TestsWith(grid.matrix, grid.tests, run, Pass)|
      && s.fail == |TestsWith(grid.matrix, grid.tests, run, Fail)|
      && s.skip == |TestsWith(grid.matrix, grid.tests, run, Skip)|
      && s.error == |TestsWith(grid.matrix, grid.tests, run, Error)|
      && s.missing == |TestsWith(grid.matrix, grid.tests, run, Missing)|
      && s.total == |grid.tests|
  }

  /** The case stands in a file of the run that could be read. */
  ghost predicate CaseIn(runs: seq<Run>, run: string, tc: TestCase) {
    exists r, f :: r in runs && r.name == run && f in r.files && f.Some? && tc in f.value
  }

  /** The worst that any case of the test shows in the run: error, failure, pass, skip, or nothing. */
  ghost predicate CellSays(runs: seq<Run>, test: string, run: string, c: Result) {
    if exists tc :: CaseIn(runs, run, tc) && tc.name == test && tc.error then c == Error
    else if exists tc :: CaseIn(runs, run, tc) && tc.name == test && tc.failure then c == Fail
    else if exists tc :: CaseIn(runs, run, tc) && tc.name == test && !tc.skipped then c == Pass
    else if exists tc :: CaseIn(runs, run, tc) && tc.name == test then c == Skip
    else c == Missing
  }

  ghost function Having(rs: seq<Result>, r: Result): set<nat> {
    set i: nat | i < |rs| && rs[i] == r
  }

  lemma HavingOneMore(rs: seq<Result>, x: Result, r: Result)
    ensures Having(rs + [x], r) == Having(rs, r) + if x == r then {|rs|} else {}
    ensures |Having(rs + [x], r)| == |Having(rs, r)| + if x == r then 1 else 0
  {
    assert Having(rs + [x], r) == Having(rs, r) + if x == r then {|rs|} else {};
  }

  lemma {:induction false} CountIsSize(rs: seq<Result>, r: Result)
    ensures Count(rs, r) == |Having(rs, r)|
  {
    if rs != [] {
      var n := |rs| - 1;
      CountIsSize(rs[..n], r);
      HavingOneMore(rs[..n], rs[n], r);
      assert rs == rs[..n] + [rs[n]];
      hide Having;
    }
  }

  lemma RowCounts(m: Matrix, test: string, runs: seq<string>, r: Result)
    ensures Count(Row(m, test, runs), r) == |RunsWith(m, test, runs, r)|
  {
    CountIsSize(Row(m, test, runs), r);
    assert RunsWith(m, test, runs, r) == Having(Row(m, test, runs), r);
  }

  lemma ColumnCounts(m: Matrix, tests: seq<string>, run: string, r: Result)
    ensures Count(Column(m, tests, run), r) == |TestsWith(m, tests, run, r)|
  {
    CountIsSize(Column(m, tests, run), r);
    assert TestsWith(m, tests, run, r) == Having(Column(m, tests, run), r);
  }

  lemma FiguresSay(grid: GridData)
    requires Summarizes(grid)
    ensures forall t :: RateSays(grid, t)
    ensures forall r :: TotalsSay(grid, r)
  {
    hide Row, Column, Count, RunsWith, TestsWith;
    forall t
      ensures RateSays(grid, t)
    {
      RowCounts(grid.matrix, t, grid.runs, Pass);
      RowCounts(grid.matrix, t, grid.runs, Fail);
      RowCounts(grid.matrix, t, grid.runs, Error);
    }
    forall r
      ensures TotalsSay(grid, r)
    {
      ColumnCounts(grid.matrix, grid.tests, r, Pass);
      ColumnCounts(grid.matrix, grid.tests, r, Fail);
      ColumnCounts(grid.matrix, grid.tests, r, Skip);
      ColumnCounts(grid.matrix, grid.tests, r, Error);
      ColumnCounts(grid.matrix, grid.tests, r, Missing);
      ColumnLength(grid.matrix, grid.tests, r);
    }
  }

  lemma ColumnLength(m: Matrix, tests: seq<string>, run: string)
    ensures |Column(m, tests, run)| == |tests|
  {
  }

  /** What the grid reports, given its runs, tests and cells. */
  ghost predicate Summarizes(grid: GridData) {
    && RatesAre(grid.matrix, grid.tests, grid.runs, grid.passRates)
    && grid.runTotals.Keys == (set r | r in grid.runs)
    && forall r :: r in grid.runTotals ==> grid.runTotals[r] == Summarize(Column(grid.matrix, grid.tests, r))
  }

  /** A rate exactly for the tests with a counted run. */
  ghost predicate RatesAre(matrix: Matrix, tests: seq<string>, names: seq<string>, passRates: map<string, real>) {
    && (forall t :: t in passRates <==> t in tests && Counted(Row(matrix, t, names)) > 0)
    && forall t :: t in passRates ==> passRates[t] == Rate(Row(matrix, t, names))
  }

  /** There is no grid without run directories. */
  method BuildGrid(runs: seq<Run>) returns (r: Option<GridData>)
    ensures r.None? <==> runs == []
    ensures r.Some? ==>
      var grid := r.value;
      && grid.runs == seq(|runs|, i requires 0 <= i < |runs| => runs[i].name)
      && grid.matrix == Fill(Observations(runs))
      && Distinct(grid.tests) && (set t | t in grid.tests) == grid.matrix.Keys
      && Summarizes(grid)
    ensures r.Some? ==>
      && (forall t :: RateSays(r.value, t)) && (forall n :: TotalsSay(r.value, n))
      && forall t, n :: CellSays(runs, t, n, Cell(r.value.matrix, t, n))
  {
    hide Fill, Distinct, RatesAre, CellSays, RateSays, TotalsSay, Observations, Cell;
    if |runs| == 0 {
      return None;
    }
    var names, matrix, testSet := FillMatrix(runs);
    var tests := ListTests(testSet);
    var passRates := RatesOf(matrix, tests, names);
    var runTotals := TotalsOf(matrix, tests, names);
    var grid := GridData(names, tests, matrix, passRates, runTotals);
    FiguresSay(grid);
    forall t, n
      ensures CellSays(runs, t, n, Cell(matrix, t, n))
    {
      CellByName(runs, t, n);
    }
    return Some(grid);
  }

  method TotalsOf(matrix: Matrix, tests: seq<string>, names: seq<string>) returns (runTotals: map<string, RunSummary>)
    ensures runTotals.Keys == set r | r in names
    ensures forall r :: r in runTotals ==> runTotals[r] == Summarize(Column(matrix, tests, r))
  {
    hide Column, Summarize;
    runTotals := map[];
    for i := 0 to |names|
      invariant runTotals.Keys == set r | r in names[..i]
      invariant forall r :: r in runTotals ==> runTotals[r] == Summarize(Column(matrix, tests, r))
    {
      assert names[..i + 1] == names[..i] + [names[i]];
      var summary := CountColumn(matrix, tests, names[i]);
      runTotals := runTotals[names[i] := summary];
    }
    assert names[..|names|] == names;
  }

  method RatesOf(matrix: Matrix, tests: seq<string>, names: seq<string>) returns (passRates: map<string, real>)
    ensures RatesAre(matrix, tests, names, passRates)
  {
    hide Row;
    passRates := map[];
    for i := 0 to |tests|
      invariant RatesAre(matrix, tests[..i], names, passRates)
    {
      assert tests[..i + 1] == tests[..i] + [tests[i]];
      var passed, total := CountRow(matrix, tests[i], names);
      if total > 0 {
        passRates := passRates[tests[i] := passed as real / total as real * 100.0];
      }
    }
    assert tests[..|tests|] == tests;
  }

  // ---------------------------------------------------------------- cells

  /** The cell is the greatest result observed for its test and run, and missing exactly when there is none. */
  lemma {:induction false} CellIsMax(obs: seq<Observation>, test: string, run: string)
    ensures var c := Cell(Fill(obs), test, run);
      && (forall o :: o in obs && o.test == test && o.run == run ==> Rank(o.result) <= Rank(c))
      && (c == Missing || Observation(test, run, c) in obs)
  {
    if obs != [] {
      var n := |obs| - 1;
      CellIsMax(obs[..n], test, run);
      assert obs == obs[..n] + [obs[n]];
    }
  }

  lemma {:induction false} FillKeys(obs: seq<Observation>, test: string, run: string)
    ensures test in Fill(obs) <==> exists o :: o in obs && o.test == test
    ensures test in Fill(obs) && run in Fill(obs)[test] <==> exists o :: o in obs && o.test == test && o.run == run
  {
    if obs != [] {
      var n := |obs| - 1;
      FillKeys(obs[..n], test, run);
      assert obs == obs[..n] + [obs[n]];
      assert obs[n] in obs;
      hide Fill;
      assert forall o :: o in obs <==> o in obs[..n] || o == obs[n];
    }
  }

  lemma SameRank(a: Result, b: Result)
    requires Rank(a) == Rank(b)
    ensures a == b
  {
  }

  /** Only what was observed matters, not in which order or how often: file and case order cannot show. */
  lemma OrderIndependent(obs: seq<Observation>, obs': seq<Observation>)
    requires forall o :: o in obs <==> o in obs'
    ensures forall test, run :: Cell(Fill(obs), test, run) == Cell(Fill(obs'), test, run)
    ensures Fill(obs).Keys == Fill(obs').Keys
  {
    forall test, run
      ensures Cell(Fill(obs), test, run) == Cell(Fill(obs'), test, run)
    {
      CellIsMax(obs, test, run);
      CellIsMax(obs', test, run);
      hide Fill;
      var a, b := Cell(Fill(obs), test, run), Cell(Fill(obs'), test, run);
      if a != Missing { assert Observation(test, run, a) in obs'; }
      if b != Missing { assert Observation(test, run, b) in obs; }
      SameRank(a, b);
    }
    forall test
      ensures test in Fill(obs).Keys <==> test in Fill(obs').Keys
    {
      FillKeys(obs, test, "");
      FillKeys(obs', test, "");
    }
  }

  predicate CaseShows(tc: TestCase, o: Observation) {
    tc.name == o.test && Classify(tc) == o.result
  }

  predicate FileShows(file: Option<seq<TestCase>>, o: Observation) {
    file.Some? && exists tc :: tc in file.value && CaseShows(tc, o)
  }

  predicate RunShows(run: Run, o: Observation) {
    run.name == o.run && exists f :: f in run.files && FileShows(f, o)
  }

  predicate Shows(runs: seq<Run>, o: Observation) {
    exists r :: r in runs && RunShows(r, o)
  }

  lemma CaseObservationsAre(run: string, cases: seq<TestCase>, o: Observation)
    ensures o in CaseObservations(run, cases) <==> o.run == run && FileShows(Some(cases), o)
  {
    var obs := CaseObservations(run, cases);
    if o.run == run && FileShows(Some(cases), o) {
      var tc :| tc in cases && CaseShows(tc, o);
      var i :| 0 <= i < |cases| && cases[i] == tc;
      assert obs[i] == o;
    }
    if o in obs {
      var i :| 0 <= i < |cases| && obs[i] == o;
      assert cases[i] in cases && CaseShows(cases[i], o);
    }
  }

  lemma {:induction false} FileObservationsAre(run: string, files: seq<Option<seq<TestCase>>>, o: Observation)
    ensures o in FileObservations(run, files) <==> o.run == run && exists f :: f in files && FileShows(f, o)
  {
    if files != [] {
      var n := |files| - 1;
      FileObservationsAre(run, files[..n], o);
      if files[n].Some? { CaseObservationsAre(run, files[n].value, o); }
      assert forall f :: f in files <==> f in files[..n] || f == files[n];
      hide CaseObservations, FileShows;
      assert files[n].None? ==> !FileShows(files[n], o) by { NoneShowsNothing(o); }
    }
  }

  lemma NoneShowsNothing(o: Observation)
    ensures !FileShows(None, o)
  {
  }

  /** What is observed is what some case of some parsable file of some run shows. */
  lemma {:induction false} ObservationsAre(runs: seq<Run>, o: Observation)
    ensures o in Observations(runs) <==> Shows(runs, o)
  {
    if runs != [] {
      var n := |runs| - 1;
      ObservationsAre(runs[..n], o);
      FileObservationsAre(runs[n].name, runs[n].files, o);
      assert RunShows(runs[n], o) <==> o in FileObservations(runs[n].name, runs[n].files);
      ShowsOneMore(runs[..n], runs[n], o);
      assert runs == runs[..n] + [runs[n]];
      hide Shows, RunShows, FileObservations;
    }
  }

  lemma ShowsOneMore(runs: seq<Run>, r: Run, o: Observation)
    ensures Shows(runs + [r], o) <==> Shows(runs, o) || RunShows(r, o)
  {
    hide RunShows;
    assert forall x :: x in runs + [r] <==> x in runs || x == r;
  }

  /** The grid in the source's terms: each cell is the maximum classified result for that test and run. */
  lemma GridCell(runs: seq<Run>, test: string, run: string)
    ensures var c := Cell(Fill(Observations(runs)), test, run);
      && (c == Missing || Shows(runs, Observation(test, run, c)))
      && forall r :: Shows(runs, Observation(test, run, r)) ==> Rank(r) <= Rank(c)
  {
    CellIsMax(Observations(runs), test, run);
    hide Fill, Shows, Observations;
    forall r
      ensures Observation(test, run, r) in Observations(runs) <==> Shows(runs, Observation(test, run, r))
    {
      ObservationsAre(runs, Observation(test, run, r));
    }
  }

  /** Two result trees whose runs show the same cases, in whatever files and order, give the same cells and tests. */
  lemma {:induction false} SameCasesSameGrid(runs: seq<Run>, runs': seq<Run>)
    requires forall o :: Shows(runs, o) <==> Shows(runs', o)
    ensures forall test, run :: Cell(Fill(Observations(runs)), test, run) == Cell(Fill(Observations(runs')), test, run)
    ensures Fill(Observations(runs)).Keys == Fill(Observations(runs')).Keys
  {
    hide Shows, Fill, Cell;
    forall o
      ensures o in Observations(runs) <==> o in Observations(runs')
    {
      ObservationsAre(runs, o);
      ObservationsAre(runs', o);
    }
    OrderIndependent(Observations(runs), Observations(runs'));
  }

  /** Each cell by result name, from the marks of the cases alone. */
  lemma CellByName(runs: seq<Run>, test: string, run: string)
    ensures CellSays(runs, test, run, Cell(Fill(Observations(runs)), test, run))
  {
    var c := Cell(Fill(Observations(runs)), test, run);
    GridCell(runs, test, run);
    hide Fill, Observations, Shows, CaseIn, Cell;
    forall tc | CaseIn(runs, run, tc) && tc.name == test
      ensures Rank(Classify(tc)) <= Rank(c)
    {
      CaseIsShown(runs, run, tc);
    }
    if c != Missing {
      var tc := ShownByCase(runs, Observation(test, run, c));
    }
  }

  lemma CaseIsShown(runs: seq<Run>, run: string, tc: TestCase)
    requires CaseIn(runs, run, tc)
    ensures Shows(runs, Observation(tc.name, run, Classify(tc)))
  {
    hide Classify;
    var o := Observation(tc.name, run, Classify(tc));
    var r, f :| r in runs && r.name == run && f in r.files && f.Some? && tc in f.value;
    assert CaseShows(tc, o);
    hide CaseShows;
    assert FileShows(f, o);
    hide FileShows;
    assert RunShows(r, o);
    hide RunShows;
  }

  lemma ShownByCase(runs: seq<Run>, o: Observation) returns (tc: TestCase)
    requires Shows(runs, o)
    ensures CaseIn(runs, o.run, tc) && tc.name == o.test && Classify(tc) == o.result
  {
    hide Classify;
    var r :| r in runs && RunShows(r, o);
    var f :| f in r.files && FileShows(f, o);
    tc :| tc in f.value && CaseShows(tc, o);
  }

  // ---------------------------------------------------------------- counts

  /** Every test is counted once in every run. */
  lemma {:induction false} SummaryAddsUp(rs: seq<Result>)
    ensures var s := Summarize(rs); s.pass + s.fail + s.skip + s.error + s.missing == s.total == |rs|
  {
    if rs != [] { SummaryAddsUp(rs[..|rs| - 1]); }
  }

  function PassesByTest(m: Matrix, tests: seq<string>, runs: seq<string>): nat {
    if tests == [] then 0
    else PassesByTest(m, tests[..|tests| - 1], runs) + Count(Row(m, tests[|tests| - 1], runs), Pass)
  }

  function PassesByRun(m: Matrix, tests: seq<string>, runs: seq<string>): nat {
    if runs == [] then 0
    else PassesByRun(m, tests, runs[..|runs| - 1]) + Summarize(Column(m, tests, runs[|runs| - 1])).pass
  }

  /** Adding up the passes test by test or run by run gives the same number. */
  lemma {:induction false} PassesAgree(m: Matrix, tests: seq<string>, runs: seq<string>)
    ensures PassesByTest(m, tests, runs) == PassesByRun(m, tests, runs)
  {
    if tests == [] {
      NoTests(m, runs);
    } else {
      var n := |tests| - 1;
      PassesAgree(m, tests[..n], runs);
      OneMoreTest(m, tests[..n], tests[n], runs);
      assert tests == tests[..n] + [tests[n]];
    }
  }

  lemma CountOneMore(rs: seq<Result>, x: Result, r: Result)
    ensures Count(rs + [x], r) == Count(rs, r) + if x == r then 1 else 0
  {
    assert (rs + [x])[..|rs|] == rs;
  }

  lemma {:induction false} NoTests(m: Matrix, runs: seq<string>)
    ensures PassesByRun(m, [], runs) == 0
  {
    if runs != [] { NoTests(m, runs[..|runs| - 1]); }
  }

  lemma {:induction false} OneMoreTest(m: Matrix, tests: seq<string>, t: string, runs: seq<string>)
    ensures PassesByRun(m, tests + [t], runs) == PassesByRun(m, tests, runs) + Count(Row(m, t, runs), Pass)
  {
    if runs != [] {
      var n := |runs| - 1;
      OneMoreTest(m, tests, t, runs[..n]);
      assert Column(m, tests + [t], runs[n]) == Column(m, tests, runs[n]) + [Cell(m, t, runs[n])];
      assert Row(m, t, runs) == Row(m, t, runs[..n]) + [Cell(m, t, runs[n])];
      hide Column, Row, Cell, Count;
      CountOneMore(Column(m, tests, runs[n]), Cell(m, t, runs[n]), Pass);
      CountOneMore(Row(m, t, runs[..n]), Cell(m, t, runs[n]), Pass);
    }
  }

  lemma {:induction false} CountFacts(rs: seq<Result>, r: Result)
    ensures Count(rs, r) > 0 <==> r in rs
    ensures Count(rs, r) <= |rs|
  {
    if rs != [] {
      CountFacts(rs[..|rs| - 1], r);
      assert rs == rs[..|rs| - 1] + [rs[|rs| - 1]];
    }
  }

  /**
   A rate exists exactly when some run passed, failed or erred; it is in 0..100, 100 when nothing
   failed, 0 when nothing passed.
   */
  lemma RateFacts(rs: seq<Result>)
    ensures Counted(rs) > 0 <==> Pass in rs || Fail in rs || Error in rs
    ensures Counted(rs) > 0 ==>
      && 0.0 <= Rate(rs) <= 100.0
      && (Rate(rs) == 100.0 <==> Fail !in rs && Error !in rs)
      && (Rate(rs) == 0.0 <==> Pass !in rs)
  {
    CountFacts(rs, Pass);
    CountFacts(rs, Fail);
    CountFacts(rs, Error);
    if Counted(rs) > 0 {
      Quotient(Count(rs, Pass), Counted(rs));
    }
  }

  lemma Quotient(p: nat, n: nat)
    requires n > 0 && p <= n
    ensures var q := p as real / n as real; 0.0 <= q <= 1.0 && (q == 1.0 <==> p == n) && (q == 0.0 <==> p == 0)
  {
    var q := p as real / n as real;
    assert q * n as real == p as real;
  }
}
