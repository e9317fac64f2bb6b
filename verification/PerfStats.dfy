/**
 The statistics of cmd/perf-compare: percentiles by sorting a copy, and the phase
 durations that computeStats and computeNewMLStats take from a watcher's records.
 Durations are integers, percentages exact.
 */
module PerfStats {
  import opened Wrappers
  import opened PhaseWatch
  import opened Seqs

  // ---------------------------------------------------------------- sorting

  function Insert(s: seq<int>, x: int): seq<int> {
    if s == [] || s[|s| - 1] <= x then s + [x] else Insert(s[..|s| - 1], x) + [s[|s| - 1]]
  }

  function Sort(s: seq<int>): (r: seq<int>)
    ensures |r| == |s|
  {
    if s == [] then [] else
      InsertLength(Sort(s[..|s| - 1]), s[|s| - 1]);
      Insert(Sort(s[..|s| - 1]), s[|s| - 1])
  }

  lemma {:induction false} InsertLength(s: seq<int>, x: int)
    ensures |Insert(s, x)| == |s| + 1
  {
    if s != [] && s[|s| - 1] > x { InsertLength(s[..|s| - 1], x); }
  }

  predicate Sorted(s: seq<int>) {
    forall i, j :: 0 <= i < j < |s| ==> s[i] <= s[j]
  }

  lemma {:induction false} InsertAt(s: seq<int>, x: int, j: nat)
    requires j <= |s| && (j == 0 || s[j - 1] <= x) && forall k :: j <= k < |s| ==> s[k] > x
    ensures Insert(s, x) == s[..j] + [x] + s[j..]
  {
    if j < |s| {
      InsertAt(s[..|s| - 1], x, j);
      assert s[..|s| - 1][..j] == s[..j];
      assert s[..|s| - 1][j..] + [s[|s| - 1]] == s[j..];
    }
  }

  lemma {:induction false} InsertElements(s: seq<int>, x: int)
    ensures multiset(Insert(s, x)) == multiset(s) + multiset{x}
  {
    if s != [] && s[|s| - 1] > x {
      var n := |s| - 1;
      InsertElements(s[..n], x);
      assert s == s[..n] + [s[n]];
    }
  }

  lemma {:induction false} InsertSorted(s: seq<int>, x: int)
    requires Sorted(s)
    ensures Sorted(Insert(s, x))
  {
    if s != [] && s[|s| - 1] > x {
      var n := |s| - 1;
      InsertSorted(s[..n], x);
      InsertElements(s[..n], x);
      var t := Insert(s[..n], x);
      hide Insert;
      forall i | 0 <= i < |t|
        ensures t[i] <= s[n]
      {
        assert t[i] in multiset(t);
        assert t[i] in s[..n] || t[i] == x;
      }
    }
  }

  lemma {:induction false} SortFacts(s: seq<int>)
    ensures Sorted(Sort(s)) && multiset(Sort(s)) == multiset(s)
  {
    if s != [] {
      var n := |s| - 1;
      SortFacts(s[..n]);
      InsertSorted(Sort(s[..n]), s[n]);
      InsertElements(Sort(s[..n]), s[n]);
      hide Insert, Sorted;
      assert s == s[..n] + [s[n]];
    }
  }

  lemma WithoutLast(s: seq<int>)
    requires s != []
    ensures multiset(s[..|s| - 1]) == multiset(s) - multiset{s[|s| - 1]}
  {
    assert s == s[..|s| - 1] + [s[|s| - 1]];
  }

  lemma LastIsGreatest(s: seq<int>, x: int)
    requires Sorted(s) && x in multiset(s)
    ensures s != [] && x <= s[|s| - 1]
  {
    assert x in s;
  }

  lemma SameLast(a: seq<int>, b: seq<int>)
    requires Sorted(a) && Sorted(b) && multiset(a) == multiset(b) && a != []
    ensures b != [] && a[|a| - 1] == b[|b| - 1]
    ensures Sorted(a[..|a| - 1]) && Sorted(b[..|b| - 1])
  {
    assert a[|a| - 1] in multiset(a);
    LastIsGreatest(b, a[|a| - 1]);
    assert b[|b| - 1] in multiset(b);
    LastIsGreatest(a, b[|b| - 1]);
  }

  /** Sorted lists with the same elements are equal. */
  lemma {:induction false} SortedUnique(a: seq<int>, b: seq<int>)
    requires Sorted(a) && Sorted(b) && multiset(a) == multiset(b)
    ensures a == b
  {
    hide Sorted;
    if a == [] {
      assert |multiset(b)| == 0;
    } else {
      SameLast(a, b);
      WithoutLast(a);
      WithoutLast(b);
      SortedUnique(a[..|a| - 1], b[..|b| - 1]);
      assert a == a[..|a| - 1] + [a[|a| - 1]] && b == b[..|b| - 1] + [b[|b| - 1]];
    }
  }

  /** One round of insertion: the element at i moves down to its place. */
  method InsertLast(a: array<int>, i: nat)
    requires i < a.Length
    modifies a
    ensures a[..i + 1] == Insert(old(a[..i]), old(a[i]))
    ensures a[i + 1..] == old(a[i + 1..])
  {
    ghost var s := a[..i];
    var x := a[i];
    var j := i;
    while j > 0 && a[j - 1] > x
      invariant 0 <= j <= i
      invariant forall k :: 0 <= k < j ==> a[k] == s[k]
      invariant forall k :: j < k <= i ==> a[k] == s[k - 1]
      invariant forall k :: j <= k < i ==> s[k] > x
      invariant a[i + 1..] == old(a[i + 1..])
    {
      a[j] := a[j - 1];
      j := j - 1;
    }
    a[j] := x;
    InsertAt(s, x, j);
    assert a[..i + 1] == s[..j] + [x] + s[j..];
  }

  method SortInPlace(a: array<int>)
    modifies a
    ensures a[..] == Sort(old(a[..]))
  {
    ghost var s := a[..];
    for i := 0 to a.Length
      invariant a[..i] == Sort(s[..i])
      invariant a[i..] == s[i..]
    {
      assert s[..i + 1][..i] == s[..i];
      assert a[i] == a[i..][0] && a[i + 1..] == a[i..][1..];
      InsertLast(a, i);
    }
    assert a[..a.Length] == a[..] && s[..a.Length] == s;
  }

  // ---------------------------------------------------------------- percentile

  function RankIndex(n: nat, p: real): int {
    ((n - 1) as real * p).Floor
  }

  lemma IndexBounds(n: nat, p: real)
    requires n > 0 && 0.0 <= p <= 1.0
    ensures 0 <= RankIndex(n, p) < n
  {
    ScaledDown((n - 1) as real, p);
  }

  lemma ScaledDown(m: real, p: real)
    requires m >= 0.0 && 0.0 <= p <= 1.0
    ensures 0.0 <= m * p <= m
  {
    ScaledMonotone(m, 0.0, p);
    ScaledMonotone(m, p, 1.0);
  }

  lemma ScaledMonotone(m: real, p: real, q: real)
    requires m >= 0.0 && p <= q
    ensures m * p <= m * q
  {
    assert m * q - m * p == m * (q - p);
  }

  function Percentile(durations: seq<int>, p: real): int
    requires durations != [] && 0.0 <= p <= 1.0
  {
    IndexBounds(|durations|, p);
    Sort(durations)[RankIndex(|durations|, p)]
  }

  /** percentile: the input is a value here as it is in the source, which sorts a copy. */
  method ComputePercentile(durations: seq<int>, p: real) returns (r: int)
    requires durations != [] && 0.0 <= p <= 1.0
    ensures r == Percentile(durations, p)
  {
    var sorted := new int[|durations|](i requires 0 <= i < |durations| => durations[i]);
    assert sorted[..] == durations;
    SortInPlace(sorted);
    IndexBounds(|durations|, p);
    hide Sort;
    var idx := RankIndex(sorted.Length, p);
    assert sorted[..][idx] == sorted[idx];
    return sorted[idx];
  }

  function CountAtMost(s: seq<int>, x: int): nat {
    if s == [] then 0 else CountAtMost(s[..|s| - 1], x) + if s[|s| - 1] <= x then 1 else 0
  }

  function CountAtLeast(s: seq<int>, x: int): nat {
    if s == [] then 0 else CountAtLeast(s[..|s| - 1], x) + if s[|s| - 1] >= x then 1 else 0
  }

  lemma {:induction false} CountsOfInsert(s: seq<int>, y: int, x: int)
    ensures CountAtMost(Insert(s, y), x) == CountAtMost(s, x) + (if y <= x then 1 else 0)
    ensures CountAtLeast(Insert(s, y), x) == CountAtLeast(s, x) + (if y >= x then 1 else 0)
  {
    if s == [] || s[|s| - 1] <= y {
      assert (s + [y])[..|s|] == s;
    } else {
      var n := |s| - 1;
      CountsOfInsert(s[..n], y, x);
      var t := Insert(s[..n], y);
      assert (t + [s[n]])[..|t|] == t;
    }
  }

  lemma {:induction false} CountsOfSort(s: seq<int>, x: int)
    ensures CountAtMost(Sort(s), x) == CountAtMost(s, x)
    ensures CountAtLeast(Sort(s), x) == CountAtLeast(s, x)
  {
    if s != [] {
      CountsOfSort(s[..|s| - 1], x);
      CountsOfInsert(Sort(s[..|s| - 1]), s[|s| - 1], x);
    }
  }

  /** In a sorted list, the element at i has at least i + 1 elements up to it and |s| - i from it on. */
  lemma {:induction false} SortedCounts(s: seq<int>, x: int, i: nat)
    requires Sorted(s) && i < |s|
    ensures s[i] <= x ==> CountAtMost(s, x) >= i + 1
    ensures x <= s[i] ==> CountAtLeast(s, x) >= |s| - i
  {
    var n := |s| - 1;
    if i < n {
      SortedCounts(s[..n], x, i);
    } else if n > 0 {
      assert s[..n][n - 1] <= s[n];
      SortedCounts(s[..n], x, n - 1);
    }
  }

  /** The percentile is an element with enough elements on either side of it. */
  lemma {:induction false} PercentileRank(durations: seq<int>, p: real)
    requires durations != [] && 0.0 <= p <= 1.0
    ensures var r, idx := Percentile(durations, p), ((|durations| - 1) as real * p).Floor;
      && r in durations
      && CountAtMost(durations, r) >= idx + 1
      && CountAtLeast(durations, r) >= |durations| - idx
  {
    var idx := RankIndex(|durations|, p);
    IndexBounds(|durations|, p);
    SortFacts(durations);
    var r := Percentile(durations, p);
    assert r in multiset(Sort(durations));
    CountsOfSort(durations, r);
    SortedCounts(Sort(durations), r, idx);
  }

  lemma PercentileOfPermutation(a: seq<int>, b: seq<int>, p: real)
    requires a != [] && 0.0 <= p <= 1.0 && multiset(a) == multiset(b)
    ensures b != [] && Percentile(a, p) == Percentile(b, p)
  {
    assert |multiset(a)| == |a| && |multiset(b)| == |b|;
    SortFacts(a);
    SortFacts(b);
    SortedUnique(Sort(a), Sort(b));
  }

  lemma RankMonotone(n: nat, p: real, q: real)
    requires n > 0 && 0.0 <= p <= q <= 1.0
    ensures 0 <= RankIndex(n, p) <= RankIndex(n, q) < n
  {
    IndexBounds(n, p);
    IndexBounds(n, q);
    ScaledMonotone((n - 1) as real, p, q);
  }

  lemma PercentileMonotone(durations: seq<int>, p: real, q: real)
    requires durations != [] && 0.0 <= p <= q <= 1.0
    ensures Percentile(durations, p) <= Percentile(durations, q)
  {
    hide RankIndex, Sort;
    RankMonotone(|durations|, p, q);
    SortFacts(durations);
  }

  // ---------------------------------------------------------------- phase durations

  /** The four duration lists, in machine order. */
  datatype Durations = Durations(total: seq<int>, pending: seq<int>, provisioning: seq<int>, joining: seq<int>)

  function AddMachine(d: Durations, m: Record): Durations {
    if m.running == 0 then d
    else Durations(
      d.total + [m.running - m.created],
      if m.provisioning == 0 then d.pending else d.pending + [m.provisioning - m.created],
      if m.provisioning == 0 || m.provisioned == 0 then d.provisioning
      else d.provisioning + [m.provisioned - m.provisioning],
      if m.provisioned == 0 then d.joining else d.joining + [m.running - m.provisioned])
  }

  function Decompose(machines: seq<Record>): Durations {
    if machines == [] then Durations([], [], [], []) else AddMachine(Decompose(Init(machines)), Last(machines))
  }

  // What the lists are: which machines count for which, and with what.

  predicate Counts(m: Record) {
    m.running != 0
  }

  predicate LeftPending(m: Record) {
    m.running != 0 && m.provisioning != 0
  }

  predicate GotProvisioned(m: Record) {
    m.running != 0 && m.provisioning != 0 && m.provisioned != 0
  }

  predicate Joined(m: Record) {
    m.running != 0 && m.provisioned != 0
  }

  function Whole(m: Record): int {
    m.running - m.created
  }

  function Pending(m: Record): int {
    m.provisioning - m.created
  }

  function Cloning(m: Record): int {
    m.provisioned - m.provisioning
  }

  function Joining(m: Record): int {
    m.running - m.provisioned
  }

  /** at are the positions of the machines that count, in order. */
  ghost predicate Positions(machines: seq<Record>, has: Record -> bool, at: seq<nat>) {
    && (forall j, k :: 0 <= j < k < |at| ==> at[j] < at[k])
    && (forall j :: 0 <= j < |at| ==> at[j] < |machines|)
    && forall i :: 0 <= i < |machines| ==> (i in at <==> has(machines[i]))
  }

  /** xs has the value of each machine that counts, in order. */
  ghost predicate ValuesAt(machines: seq<Record>, at: seq<nat>, value: Record -> int, xs: seq<int>) {
    && (forall j :: 0 <= j < |at| ==> at[j] < |machines|)
    && |xs| == |at| && forall j :: 0 <= j < |at| ==> xs[j] == value(machines[at[j]])
  }

  ghost predicate Collects(machines: seq<Record>, has: Record -> bool, value: Record -> int, xs: seq<int>) {
    exists at :: Positions(machines, has, at) && ValuesAt(machines, at, value, xs)
  }

  /** The four lists: totals, and the three phases. */
  ghost predicate AreDurations(machines: seq<Record>, d: Durations) {
    && Collects(machines, Counts, Whole, d.total)
    && Collects(machines, LeftPending, Pending, d.pending)
    && Collects(machines, GotProvisioned, Cloning, d.provisioning)
    && Collects(machines, Joined, Joining, d.joining)
  }

  lemma PositionsOneMore(machines: seq<Record>, has: Record -> bool, at: seq<nat>, m: Record)
    requires Positions(machines, has, at)
    ensures Positions(machines + [m], has, if has(m) then at + [|machines|] else at)
  {
    assert |machines| !in at;
  }

  lemma ValuesOneMore(machines: seq<Record>, at: seq<nat>, value: Record -> int, xs: seq<int>, m: Record)
    requires ValuesAt(machines, at, value, xs)
    ensures ValuesAt(machines + [m], at, value, xs)
    ensures ValuesAt(machines + [m], at + [|machines|], value, xs + [value(m)])
  {
  }

  lemma CollectsOneMore(machines: seq<Record>, has: Record -> bool, value: Record -> int, xs: seq<int>, m: Record)
    requires Collects(machines, has, value, xs)
    ensures Collects(machines + [m], has, value, if has(m) then xs + [value(m)] else xs)
  {
    var at :| Positions(machines, has, at) && ValuesAt(machines, at, value, xs);
    PositionsOneMore(machines, has, at, m);
    ValuesOneMore(machines, at, value, xs, m);
    hide Positions, ValuesAt;
  }

  lemma CollectsNothing(has: Record -> bool, value: Record -> int)
    ensures Collects([], has, value, [])
  {
    assert Positions([], has, []) && ValuesAt([], [], value, []);
  }

  lemma {:induction false} DecomposeIsDurations(machines: seq<Record>)
    ensures AreDurations(machines, Decompose(machines))
  {
    hide Collects;
    if machines == [] {
      CollectsNothing(Counts, Whole);
      CollectsNothing(LeftPending, Pending);
      CollectsNothing(GotProvisioned, Cloning);
      CollectsNothing(Joined, Joining);
    } else {
      var before, m, d := Init(machines), Last(machines), Decompose(Init(machines));
      DecomposeIsDurations(before);
      assert machines == before + [m];
      CollectsOneMore(before, Counts, Whole, d.total, m);
      CollectsOneMore(before, LeftPending, Pending, d.pending, m);
      CollectsOneMore(before, GotProvisioned, Cloning, d.provisioning, m);
      CollectsOneMore(before, Joined, Joining, d.joining, m);
    }
  }

  method PhaseDurations(machines: seq<Record>) returns (d: Durations)
    ensures d == Decompose(machines) && AreDurations(machines, d)
  {
    DecomposeIsDurations(machines);
    hide AreDurations;
    d := Durations([], [], [], []);
    for i := 0 to |machines|
      invariant d == Decompose(machines[..i])
    {
      var m := machines[i];
      assert machines[..i + 1] == machines[..i] + [m];
      DecomposeOneMore(machines[..i], m);
      hide Decompose;
      if m.running == 0 {
        continue;
      }
      d := d.(total := d.total + [m.running - m.created]);
      if m.provisioning != 0 {
        d := d.(pending := d.pending + [m.provisioning - m.created]);
      }
      if m.provisioning != 0 && m.provisioned != 0 {
        d := d.(provisioning := d.provisioning + [m.provisioned - m.provisioning]);
      }
      if m.provisioned != 0 {
        d := d.(joining := d.joining + [m.running - m.provisioned]);
      }
    }
    assert machines[..|machines|] == machines;
  }

  datatype BenchmarkResult = BenchmarkResult(
    scaleRequest: Time, allRunning: Time, machines: seq<Record>, newMachines: Option<NewMachineLatency>)

  datatype NewMachineLatency = NewMachineLatency(background: int, count: int, machines: seq<Record>)

  datatype NewMLStats = NewMLStats(background: int, count: int, pendingP50: int, provisionP50: int, joinP50: int,
      totalP50: int)

  /** throughput is machines per nanosecond here; the source divides by minutes. */
  datatype Stats = Stats(
    totalTime: int, machineCount: nat, throughput: real,
    totalP50: int, totalP90: int, totalP99: int,
    pendingP50: int, provisionP50: int, joinP50: int,
    newML: Option<NewMLStats>)

  /** An empty list reports 0. */
  function PercentileOrZero(durations: seq<int>, p: real): int
    requires 0.0 <= p <= 1.0
  {
    if durations == [] then 0 else Percentile(durations, p)
  }

  function NewMLStatsOf(nml: NewMachineLatency): Option<NewMLStats> {
    var d := Decompose(nml.machines);
    if d.total == [] then None
    else Some(NewMLStats(nml.background, nml.count,
      PercentileOrZero(d.pending, 0.5), PercentileOrZero(d.provisioning, 0.5), PercentileOrZero(d.joining, 0.5),
      Percentile(d.total, 0.5)))
  }

  function StatsOf(r: BenchmarkResult): Stats {
    var d := Decompose(r.machines);
    var totalTime := r.allRunning - r.scaleRequest;
    Stats(totalTime, |d.total|, if totalTime > 0 then |d.total| as real / totalTime as real else 0.0,
      PercentileOrZero(d.total, 0.5), PercentileOrZero(d.total, 0.9), PercentileOrZero(d.total, 0.99),
      PercentileOrZero(d.pending, 0.5), PercentileOrZero(d.provisioning, 0.5), PercentileOrZero(d.joining, 0.5),
      if r.newMachines.None? then None else NewMLStatsOf(r.newMachines.value))
  }

  /** r is the p-percentile: an element with enough elements on either side of it; 0 for an empty list. */
  ghost predicate IsPercentile(xs: seq<int>, p: real, r: int) {
    if xs == [] then r == 0
    else
      var idx := ((|xs| - 1) as real * p).Floor;
      r in xs && CountAtMost(xs, r) >= idx + 1 && CountAtLeast(xs, r) >= |xs| - idx
  }

  lemma PercentileOrZeroIs(xs: seq<int>, p: real)
    requires 0.0 <= p <= 1.0
    ensures IsPercentile(xs, p, PercentileOrZero(xs, p))
  {
    if xs != [] { PercentileRank(xs, p); }
  }

  /** What the figures for new machines say about their records. */
  ghost predicate AreNewMLStats(nml: NewMachineLatency, s: Option<NewMLStats>) {
    exists d :: AreDurations(nml.machines, d) && (s.Some? <==> d.total != []) &&
      (s.Some? ==>
        && s.value.background == nml.background && s.value.count == nml.count
        && IsPercentile(d.total, 0.5, s.value.totalP50) && IsPercentile(d.pending, 0.5, s.value.pendingP50)
        && IsPercentile(d.provisioning, 0.5, s.value.provisionP50) && IsPercentile(d.joining, 0.5, s.value.joinP50))
  }

  /** What the figures of a result say about its records. */
  ghost predicate AreStats(r: BenchmarkResult, s: Stats) {
    && s.totalTime == r.allRunning - r.scaleRequest
    && (match r.newMachines
        case None => s.newML == None
        case Some(nml) => AreNewMLStats(nml, s.newML))
    && exists d :: AreDurations(r.machines, d) && AreFigures(d, s)
  }

  ghost predicate AreFigures(d: Durations, s: Stats) {
    && s.machineCount == |d.total|
    && (if s.totalTime > 0 then s.throughput * s.totalTime as real == |d.total| as real else s.throughput == 0.0)
    && IsPercentile(d.total, 0.5, s.totalP50)
    && IsPercentile(d.total, 0.9, s.totalP90)
    && IsPercentile(d.total, 0.99, s.totalP99)
    && IsPercentile(d.pending, 0.5, s.pendingP50)
    && IsPercentile(d.provisioning, 0.5, s.provisionP50)
    && IsPercentile(d.joining, 0.5, s.joinP50)
  }

  lemma NewMLStatsAre(nml: NewMachineLatency)
    ensures AreNewMLStats(nml, NewMLStatsOf(nml))
  {
    hide Decompose, Percentile, AreDurations, IsPercentile;
    var d := Decompose(nml.machines);
    DecomposeIsDurations(nml.machines);
    PercentileOrZeroIs(d.total, 0.5);
    PercentileOrZeroIs(d.pending, 0.5);
    PercentileOrZeroIs(d.provisioning, 0.5);
    PercentileOrZeroIs(d.joining, 0.5);
  }

  lemma StatsAre(r: BenchmarkResult)
    ensures AreStats(r, StatsOf(r))
  {
    hide Decompose, Percentile, AreDurations, IsPercentile, NewMLStatsOf, AreNewMLStats;
    var d := Decompose(r.machines);
    DecomposeIsDurations(r.machines);
    PercentileOrZeroIs(d.total, 0.5);
    PercentileOrZeroIs(d.total, 0.9);
    PercentileOrZeroIs(d.total, 0.99);
    PercentileOrZeroIs(d.pending, 0.5);
    PercentileOrZeroIs(d.provisioning, 0.5);
    PercentileOrZeroIs(d.joining, 0.5);
    if r.newMachines.Some? { NewMLStatsAre(r.newMachines.value); }
    assert AreFigures(d, StatsOf(r));
  }

  method ComputeNewMLStats(nml: NewMachineLatency) returns (s: Option<NewMLStats>)
    ensures s == NewMLStatsOf(nml) && AreNewMLStats(nml, s)
  {
    NewMLStatsAre(nml);
    hide AreNewMLStats;
    hide Decompose, Percentile;
    var d := PhaseDurations(nml.machines);
    if |d.total| == 0 {
      return None;
    }
    var totalP50 := ComputePercentile(d.total, 0.5);
    var stats := NewMLStats(nml.background, nml.count, 0, 0, 0, totalP50);
    if |d.pending| > 0 {
      var p50 := ComputePercentile(d.pending, 0.5);
      stats := stats.(pendingP50 := p50);
    }
    if |d.provisioning| > 0 {
      var p50 := ComputePercentile(d.provisioning, 0.5);
      stats := stats.(provisionP50 := p50);
    }
    if |d.joining| > 0 {
      var p50 := ComputePercentile(d.joining, 0.5);
      stats := stats.(joinP50 := p50);
    }
    return Some(stats);
  }

  method ComputeStats(r: BenchmarkResult) returns (s: Stats)
    ensures s == StatsOf(r) && AreStats(r, s)
  {
    StatsAre(r);
    hide AreStats;
    hide Decompose, Percentile;
    var d := PhaseDurations(r.machines);
    var totalTime := r.allRunning - r.scaleRequest;
    s := Stats(totalTime, |d.total|, 0.0, 0, 0, 0, 0, 0, 0, None);
    if totalTime > 0 {
      s := s.(throughput := |d.total| as real / totalTime as real);
    }
    if |d.total| > 0 {
      var p50 := ComputePercentile(d.total, 0.5);
      var p90 := ComputePercentile(d.total, 0.9);
      var p99 := ComputePercentile(d.total, 0.99);
      s := s.(totalP50 := p50, totalP90 := p90, totalP99 := p99);
    }
    if |d.pending| > 0 {
      var p50 := ComputePercentile(d.pending, 0.5);
      s := s.(pendingP50 := p50);
    }
    if |d.provisioning| > 0 {
      var p50 := ComputePercentile(d.provisioning, 0.5);
      s := s.(provisionP50 := p50);
    }
    if |d.joining| > 0 {
      var p50 := ComputePercentile(d.joining, 0.5);
      s := s.(joinP50 := p50);
    }
    if r.newMachines.Some? {
      var newML := ComputeNewMLStats(r.newMachines.value);
      s := s.(newML := newML);
    }
  }

  /** Some machine got to Running. */
  predicate AnyRunning(machines: seq<Record>) {
    exists i :: 0 <= i < |machines| && machines[i].running != 0
  }

  lemma {:induction false} TotalsOfRunning(machines: seq<Record>)
    ensures Decompose(machines).total != [] <==> AnyRunning(machines)
  {
    if machines != [] {
      TotalsOfRunning(Init(machines));
      assert AnyRunning(machines) <==> AnyRunning(Init(machines)) || Last(machines).running != 0;
      hide AnyRunning;
    }
  }

  /** The new-machine figures are there exactly when a machine got to Running. */
  lemma NewMLMedians(nml: NewMachineLatency)
    ensures NewMLStatsOf(nml).Some? <==> exists i :: 0 <= i < |nml.machines| && nml.machines[i].running != 0
    ensures AreNewMLStats(nml, NewMLStatsOf(nml))
  {
    TotalsOfRunning(nml.machines);
    NewMLStatsAre(nml);
  }

  lemma {:induction false} PercentilesInOrder(r: BenchmarkResult)
    ensures var s := StatsOf(r); s.totalP50 <= s.totalP90 <= s.totalP99
  {
    var d := Decompose(r.machines).total;
    if d != [] {
      PercentileMonotone(d, 0.5, 0.9);
      PercentileMonotone(d, 0.9, 0.99);
    }
  }

  // ---------------------------------------------------------------- the phases add up

  /** A machine that got to Running has the earlier stamps too. */
  predicate Complete(machines: seq<Record>) {
    forall i :: 0 <= i < |machines| && machines[i].running != 0 ==>
      machines[i].provisioning != 0 && machines[i].provisioned != 0
  }

  /** No list is longer than the totals, and all four are equally long exactly for complete records. */
  lemma {:induction false} LengthsAgreeIff(machines: seq<Record>)
    ensures var d := Decompose(machines);
      && |d.provisioning| <= |d.pending| <= |d.total| && |d.provisioning| <= |d.joining| <= |d.total|
      && (|d.provisioning| == |d.total| <==> Complete(machines))
  {
    if machines != [] {
      LengthsAgreeIff(Init(machines));
      CompleteOneMore(Init(machines), Last(machines));
      assert machines == Init(machines) + [Last(machines)];
      hide Complete;
    }
  }

  lemma CompleteOneMore(machines: seq<Record>, m: Record)
    ensures Complete(machines + [m]) <==>
      Complete(machines) && (m.running != 0 ==> m.provisioning != 0 && m.provisioned != 0)
  {
    assert (machines + [m])[|machines|] == m;
    assert forall i :: 0 <= i < |machines| ==> (machines + [m])[i] == machines[i];
  }

  lemma DecomposeOneMore(machines: seq<Record>, m: Record)
    ensures Decompose(machines + [m]) == AddMachine(Decompose(machines), m)
  {
    assert Init(machines + [m]) == machines;
    hide AddMachine;
  }

  /** The j-th entries of the lists are those of this machine. */
  ghost predicate PhasesOf(d: Durations, j: nat, m: Record)
    requires j < |d.total| && j < |d.pending| && j < |d.provisioning| && j < |d.joining|
  {
    && d.total[j] == m.running - m.created
    && d.pending[j] == m.provisioning - m.created
    && d.provisioning[j] == m.provisioned - m.provisioning
    && d.joining[j] == m.running - m.provisioned
  }

  /** For complete records the lists go machine by machine, and each total is the sum of its three phases. */
  lemma PhasesAddUpEach(machines: seq<Record>, d: Durations, j: nat)
    requires Complete(machines) && AreDurations(machines, d) && j < |d.total|
    ensures j < |d.pending| && j < |d.provisioning| && j < |d.joining|
    ensures d.total[j] == d.pending[j] + d.provisioning[j] + d.joining[j]
    ensures exists m :: m in machines && m.running != 0 && PhasesOf(d, j, m)
  {
    var at := ListsGoTogether(machines, d);
    PositionCounts(machines, Counts, at, j);
    assert machines[at[j]] in machines && PhasesOf(d, j, machines[at[j]]);
  }

  /** For complete records the same machines count for all four lists. */
  lemma ListsGoTogether(machines: seq<Record>, d: Durations) returns (at: seq<nat>)
    requires Complete(machines) && AreDurations(machines, d)
    ensures Positions(machines, Counts, at)
    ensures ValuesAt(machines, at, Whole, d.total) && ValuesAt(machines, at, Pending, d.pending)
    ensures ValuesAt(machines, at, Cloning, d.provisioning) && ValuesAt(machines, at, Joining, d.joining)
  {
    at :| Positions(machines, Counts, at) && ValuesAt(machines, at, Whole, d.total);
    var p :| Positions(machines, LeftPending, p) && ValuesAt(machines, p, Pending, d.pending);
    var v :| Positions(machines, GotProvisioned, v) && ValuesAt(machines, v, Cloning, d.provisioning);
    var g :| Positions(machines, Joined, g) && ValuesAt(machines, g, Joining, d.joining);
    hide Positions, ValuesAt;
    SamePositions(machines, Counts, LeftPending, at, p);
    SamePositions(machines, Counts, GotProvisioned, at, v);
    SamePositions(machines, Counts, Joined, at, g);
  }

  lemma PositionCounts(machines: seq<Record>, has: Record -> bool, at: seq<nat>, j: nat)
    requires Positions(machines, has, at) && j < |at|
    ensures at[j] < |machines| && has(machines[at[j]])
  {
  }

  lemma {:induction false} SamePositions(machines: seq<Record>, has: Record -> bool, has': Record -> bool, a: seq<nat>,
      b: seq<nat>)
    requires Positions(machines, has, a) && Positions(machines, has', b)
    requires forall i :: 0 <= i < |machines| ==> has(machines[i]) == has'(machines[i])
    ensures a == b
  {
    forall x
      ensures x in a <==> x in b
    {
    }
    AscendingUnique(a, b);
  }

  lemma {:induction false} AscendingUnique(a: seq<nat>, b: seq<nat>)
    requires forall j, k :: 0 <= j < k < |a| ==> a[j] < a[k]
    requires forall j, k :: 0 <= j < k < |b| ==> b[j] < b[k]
    requires forall x :: x in a <==> x in b
    ensures a == b
    decreases |a|
  {
    assert b != [] ==> b[0] in a;
    if a != [] {
      assert a[0] in b;
      var x, y := Last(a), Last(b);
      assert x in b && y in a;
      assert b != [] && x <= Last(b) && y <= x;
      assert a == Init(a) + [x] && b == Init(b) + [y];
      forall z
        ensures z in Init(a) <==> z in Init(b)
      {
        assert z in a <==> z in Init(a) || z == x;
        assert z in b <==> z in Init(b) || z == y;
      }
      AscendingUnique(Init(a), Init(b));
    }
  }

  /** For complete records the three phases add up to the totals. */
  lemma {:induction false} PhasesAddUp(machines: seq<Record>)
    requires Complete(machines)
    ensures var d := Decompose(machines); Sum(d.total) == Sum(d.pending) + Sum(d.provisioning) + Sum(d.joining)
  {
    if machines != [] {
      var before, m := Init(machines), Last(machines);
      CompleteOneMore(before, m);
      assert machines == before + [m];
      PhasesAddUp(before);
      DecomposeOneMore(before, m);
      hide Sum, Complete, Decompose;
      var d := Decompose(before);
      SumOneMore(d.total, m.running - m.created);
      SumOneMore(d.pending, m.provisioning - m.created);
      SumOneMore(d.provisioning, m.provisioned - m.provisioning);
      SumOneMore(d.joining, m.running - m.provisioned);
    }
  }

  predicate InOrder(m: Record) {
    && (m.running != 0 ==> 0 != m.provisioned <= m.running)
    && (m.provisioned != 0 ==> 0 != m.provisioning <= m.provisioned)
  }

  lemma {:induction false} NoNegativePhase(machines: seq<Record>)
    requires forall i :: 0 <= i < |machines| ==> InOrder(machines[i])
    ensures forall x :: x in Decompose(machines).provisioning ==> x >= 0
    ensures forall x :: x in Decompose(machines).joining ==> x >= 0
  {
    if machines != [] {
      NoNegativePhase(Init(machines));
    }
  }

  /** For what a watch reports: equally long lists that add up, and no negative later phase. */
  lemma WatchedPhasesAddUp(polls: seq<Poll>, machines: seq<Record>, allRunning: Time)
    requires GoodPolls(polls) && ClocksNeverGoBack(polls) && Reports(ObservePolls(polls), machines, allRunning)
    ensures var d := Decompose(machines);
      && |d.total| == |d.pending| == |d.provisioning| == |d.joining|
      && Sum(d.total) == Sum(d.pending) + Sum(d.provisioning) + Sum(d.joining)
      && (forall x :: x in d.provisioning ==> x >= 0) && (forall x :: x in d.joining ==> x >= 0)
  {
    var recs := ObservePolls(polls);
    forall i | 0 <= i < |machines|
      ensures InOrder(machines[i])
    {
      var name :| name in recs && recs[name] == machines[i];
      RecordStagesInOrder(polls, name);
    }
    hide ObservePolls, Decompose;
    LengthsAgreeIff(machines);
    PhasesAddUp(machines);
    NoNegativePhase(machines);
  }
}
