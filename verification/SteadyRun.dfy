/**
 The steady-state benchmark (test/e2e/steady_state_perf_test.go): P0 drains the worker
 MachineSets, P1 ramps one of them in batches, P2 adds increments, and AfterAll restores
 the recorded replica counts wherever the run stopped. The environment is an input: the
 outcome of each call, and the machine lists that successive polls return.
 */
module SteadyRun {
  import opened Wrappers
  import opened PhaseWatch
  import opened Seqs

  type int32 = x: int | -0x8000_0000 <= x < 0x8000_0000

  /** Go's int32(n). */
  function Int32(n: int): int32 {
    (n + 0x8000_0000) % 0x1_0000_0000 - 0x8000_0000
  }

  /** spec.replicas of the MachineSets, by name; nil counts as 0. */
  type Sets = map<string, Option<int32>>

  function Reps(r: Option<int32>): int {
    if r.Some? then r.value else 0
  }

  /** What the benchmark asks of the cluster, or waits for. */
  datatype Request =
    | ListWorkers
    | Scale(name: string, replicas: int32)
    | AwaitRunning(name: string, count: int)
    | AwaitDrained(name: string, count: int)
    | DeleteSet(name: string)
    | ListMachines(name: string)
    | AwaitNodes

  /** FailsLate: the request took effect although the caller sees an error. */
  datatype Outcome = Works | Fails | FailsLate

  datatype StepResult = StepResult(index: int, replicasAfter: int, machines: seq<Record>)

  function Names(r: StepResult): set<string> {
    set m | m in r.machines :: m.name
  }

  // ---------------------------------------------------------------- calls

  predicate AllWork(calls: seq<Outcome>) {
    forall i :: 0 <= i < |calls| ==> calls[i].Works?
  }

  /** At most k of the outcomes before are used up; with k working ones, ok holds. */
  predicate Spent(before: seq<Outcome>, after: seq<Outcome>, k: nat, ok: bool) {
    && |after| <= |before| <= |after| + k
    && (AllWork(before) ==> AllWork(after) && (|before| >= k ==> ok))
  }

  lemma SpentThen(a: seq<Outcome>, b: seq<Outcome>, k: nat, c: seq<Outcome>, m: nat, ok: bool)
    requires Spent(a, b, k, true) && Spent(b, c, m, ok)
    ensures Spent(a, c, k + m, ok)
  {
    hide AllWork;
  }

  lemma SpentLess(a: seq<Outcome>, b: seq<Outcome>, k: nat, m: nat, ok: bool, ok': bool)
    requires Spent(a, b, k, ok) && k <= m && (ok ==> ok')
    ensures Spent(a, b, m, ok')
  {
    hide AllWork;
  }

  /** Enough working calls leave some that work. */
  lemma ProvidedWorks(before: seq<Outcome>, after: seq<Outcome>, k: nat, left: nat, ok: bool)
    requires Spent(before, after, k, ok) && AllWork(before) && |before| >= k + left
    ensures ok && |after| >= left && AllWork(after)
  {
    hide AllWork;
  }

  predicate FirstWork(calls: seq<Outcome>, n: nat) {
    |calls| >= n && forall i :: 0 <= i < n ==> calls[i].Works?
  }

  lemma FirstStillWork(before: seq<Outcome>, after: seq<Outcome>, n: nat)
    requires n > 0 && FirstWork(before, n) && (after == before || after == before[1..])
    ensures FirstWork(after, n - 1)
  {
  }

  lemma SpentNothing(a: seq<Outcome>)
    ensures Spent(a, a, 0, true)
  {
    hide AllWork;
  }

  /** So many calls were made, and all of them worked. */
  predicate Worked(calls: seq<Outcome>, n: nat, left: seq<Outcome>) {
    |calls| >= n && calls[n..] == left && forall i :: 0 <= i < n ==> calls[i].Works?
  }

  lemma NothingWorked(calls: seq<Outcome>)
    ensures Worked(calls, 0, calls)
  {
  }

  lemma WorkedThen(a: seq<Outcome>, n: nat, b: seq<Outcome>, m: nat, c: seq<Outcome>)
    requires Worked(a, n, b) && Worked(b, m, c)
    ensures Worked(a, n + m, c)
  {
    assert a[n..][m..] == a[n + m..];
    forall i | 0 <= i < n + m
      ensures a[i].Works?
    {
      assert i >= n ==> a[i] == b[i - n];
    }
  }

  // ---------------------------------------------------------------- what has to be asked

  /** P0 brings each worker set to what it keeps, and waits when that is more than it had. */
  ghost predicate ScalesAsked(start: Sets, workers: seq<string>, n: nat, floor: int, reqs: seq<Request>)
    requires n <= |workers| && forall w :: w in workers ==> w in start
  {
    forall i :: 0 <= i < n ==>
      var reps, keep := Reps(start[workers[i]]), if i == 0 then floor else 0;
      && (reps != keep ==> Scale(workers[i], Int32(keep)) in reqs)
      && (reps < keep ==> AwaitRunning(workers[i], keep) in reqs)
  }

  /** Then it waits for each set that had more. */
  ghost predicate WaitsAsked(counts: map<string, int>, workers: seq<string>, n: nat, floor: int, reqs: seq<Request>)
    requires n <= |workers| && forall w :: w in workers ==> w in counts
  {
    && (workers != [] && counts[workers[0]] > floor ==> AwaitDrained(workers[0], floor) in reqs)
    && forall i :: 0 < i < n && counts[workers[i]] != 0 ==> AwaitDrained(workers[i], 0) in reqs
  }

  /** Then it deletes what earlier benchmarks left. */
  ghost predicate DeletesAsked(start: Sets, reqs: seq<Request>) {
    forall n :: n in start && ("perf-bench-" <= n || "perf-newml-" <= n) ==> DeleteSet(n) in reqs
  }

  ghost function Counts(start: Sets): map<string, int> {
    map n | n in start :: Reps(start[n])
  }

  /** All that a successful P0 asks, in order. */
  ghost predicate P0Asked(start: Sets, workers: seq<string>, floor: int, reqs: seq<Request>)
    requires workers != [] && forall w :: w in workers ==> w in start
  {
    exists scales, waits, deletes ::
      && reqs == [ListWorkers] + scales + waits + deletes + [ListMachines(workers[0]), AwaitNodes]
      && ScalesAsked(start, workers, |workers|, floor, scales)
      && WaitsAsked(Counts(start), workers, |workers|, floor, waits)
      && DeletesAsked(start, deletes)
  }

  lemma AllP0Asked(start: Sets, workers: seq<string>, floor: int, scales: seq<Request>, waits: seq<Request>,
      deletes: seq<Request>)
    requires workers != [] && forall w :: w in workers ==> w in start
    requires ScalesAsked(start, workers, |workers|, floor, scales) && DeletesAsked(start, deletes)
    requires WaitsAsked(Counts(start), workers, |workers|, floor, waits)
    ensures P0Asked(start, workers, floor,
      [ListWorkers] + scales + waits + deletes + [ListMachines(workers[0]), AwaitNodes])
  {
    hide ScalesAsked, WaitsAsked, DeletesAsked;
  }

  /** Each step asks for its count, and then for all nodes to be ready. */
  ghost predicate StepsAsked(name: string, results: seq<StepResult>, reqs: seq<Request>) {
    && |reqs| == 2 * |results|
    && forall i :: 0 <= i < |results| ==>
      reqs[2 * i] == Scale(name, Int32(results[i].replicasAfter)) && reqs[2 * i + 1] == AwaitNodes
  }

  lemma NoStepsYet(name: string)
    ensures StepsAsked(name, [], [])
  {
  }

  lemma StepsOneMore(name: string, results: seq<StepResult>, reqs: seq<Request>, r: StepResult)
    requires StepsAsked(name, results, reqs)
    ensures StepsAsked(name, results + [r], reqs + [Scale(name, Int32(r.replicasAfter)), AwaitNodes])
  {
    hide Int32;
  }

  lemma StepsThenSteps(name: string, a: seq<StepResult>, p: seq<Request>, b: seq<StepResult>, q: seq<Request>)
    requires StepsAsked(name, a, p) && StepsAsked(name, b, q)
    ensures StepsAsked(name, a + b, p + q)
  {
    hide Int32;
  }

  lemma ScalesOneMore(start: Sets, workers: seq<string>, i: nat, floor: int, reqs: seq<Request>, more: seq<Request>)
    requires i < |workers| && (forall w :: w in workers ==> w in start) && ScalesAsked(start, workers, i, floor, reqs)
    requires var reps, keep := Reps(start[workers[i]]), if i == 0 then floor else 0;
      && (reps != keep ==> Scale(workers[i], Int32(keep)) in more)
      && (reps < keep ==> AwaitRunning(workers[i], keep) in more)
    ensures ScalesAsked(start, workers, i + 1, floor, reqs + more)
  {
    hide Int32, Reps;
  }

  lemma WaitsOneMore(counts: map<string, int>, workers: seq<string>, i: nat, floor: int, reqs: seq<Request>,
      more: seq<Request>)
    requires i < |workers| && (forall w :: w in workers ==> w in counts)
    requires WaitsAsked(counts, workers, i, floor, reqs)
    requires i > 0 && counts[workers[i]] != 0 ==> AwaitDrained(workers[i], 0) in more
    ensures WaitsAsked(counts, workers, i + 1, floor, reqs + more)
  {
  }

  lemma RecordedWithout(start: Sets, now: Sets, originals: Option<map<string, int>>, name: string)
    requires Recorded(start, now, originals) && IsLeftover(name)
    ensures Recorded(start, now - {name}, originals)
  {
    hide Reps, IsLeftover;
  }

  lemma DeletedAll(all: Sets, now: Sets, reqs: seq<Request>)
    requires forall n :: n in now ==> n in all
    requires forall n :: n in all && !IsLeftover(n) ==> n in now
    requires forall n :: n in all && IsLeftover(n) ==> n !in now && DeleteSet(n) in reqs
    ensures Cleaned(all, now) && DeletesAsked(all, reqs)
  {
  }

  lemma SameLeftovers(start: Sets, before: Sets, after: Sets, reqs: seq<Request>)
    requires before.Keys == start.Keys
    ensures Cleaned(before, after) ==> Cleaned(start, after)
    ensures DeletesAsked(before, reqs) ==> DeletesAsked(start, reqs)
  {
  }

  lemma StillCleaned(start: Sets, a: Sets, b: Sets, name: string)
    requires OnlyScaled(a, b, name) && Cleaned(start, a)
    ensures Cleaned(start, b)
  {
  }

  /** What is recorded are the counts of the start. */
  lemma WaitsOfStart(start: Sets, now: Sets, originals: Option<map<string, int>>, workers: seq<string>, floor: int,
      reqs: seq<Request>)
    requires Recorded(start, now, originals) && originals.Some?
    requires forall w :: w in workers ==> w in originals.value && w in start
    requires WaitsAsked(originals.value, workers, |workers|, floor, reqs)
    ensures WaitsAsked(Counts(start), workers, |workers|, floor, reqs)
  {
    hide Reps;
    assert forall i :: 0 <= i < |workers| ==> workers[i] in workers;
  }

  lemma WaitsStart(counts: map<string, int>, workers: seq<string>, floor: int, reqs: seq<Request>)
    requires workers != [] && forall w :: w in workers ==> w in counts
    requires counts[workers[0]] > floor ==> AwaitDrained(workers[0], floor) in reqs
    ensures WaitsAsked(counts, workers, 0, floor, reqs)
  {
  }

  lemma NoScalesYet(start: Sets, workers: seq<string>, floor: int)
    requires forall w :: w in workers ==> w in start
    ensures ScalesAsked(start, workers, 0, floor, [])
  {
  }

  /** The sets of the start without what earlier benchmarks left. */
  ghost predicate Cleaned(start: Sets, now: Sets) {
    forall n :: n in now <==> n in start && !("perf-bench-" <= n) && !("perf-newml-" <= n)
  }

  // ---------------------------------------------------------------- restoring

  predicate IsLeftover(name: string) {
    "perf-bench-" <= name || "perf-newml-" <= name
  }

  /** Whatever differs from the start is recorded, and nothing false is. */
  predicate Recorded(start: Sets, now: Sets, originals: Option<map<string, int>>) {
    && now.Keys <= start.Keys
    && (forall n :: n in start && !IsLeftover(n) ==> n in now)
    && (forall n :: n in now && Reps(now[n]) != Reps(start[n]) ==> originals.Some? && n in originals.value)
    && (originals.Some? ==> forall n :: n in originals.value ==> n in start && originals.value[n] == Reps(start[n]))
  }

  /** The first i workers are drained: the ramp set, which comes first, to top, the others to zero. */
  predicate StoppedUpTo(start: Sets, now: Sets, workers: seq<string>, i: nat, top: int)
    requires i <= |workers|
  {
    forall n :: n in now ==>
      && n in start
      && (n !in workers[..i] ==> now[n] == start[n])
      && (n in workers[..i] ==> Reps(now[n]) == if n == workers[0] then top else 0)
  }

  /** Where the sets stand after the last step: every worker but the ramp set at zero, everything else untouched. */
  predicate Stopped(start: Sets, now: Sets, workers: seq<string>, top: int) {
    StoppedUpTo(start, now, workers, |workers|, top)
  }

  lemma NoneDrained(start: Sets, workers: seq<string>, top: int)
    ensures StoppedUpTo(start, start, workers, 0, top) && FirstNames(workers, 0) == {}
  {
  }

  function FirstNames(workers: seq<string>, i: nat): set<string>
    requires i <= |workers|
  {
    set w | w in workers[..i]
  }

  lemma AllNames(workers: seq<string>)
    ensures FirstNames(workers, |workers|) == set w | w in workers
    ensures forall w :: w in workers <==> w in FirstNames(workers, |workers|)
  {
    assert workers[..|workers|] == workers;
  }

  lemma OneMoreName(workers: seq<string>, i: nat)
    requires i < |workers|
    ensures FirstNames(workers, i + 1) == FirstNames(workers, i) + {workers[i]}
  {
    assert workers[..i + 1] == workers[..i] + [workers[i]];
  }

  lemma StoppedOneMore(start: Sets, a: Sets, b: Sets, workers: seq<string>, i: nat, top: int)
    requires i < |workers| && Distinct(workers) && workers[i] in a
    requires StoppedUpTo(start, a, workers, i, top) && OnlyScaled(a, b, workers[i])
    requires Reps(b[workers[i]]) == if i == 0 then top else 0
    ensures StoppedUpTo(start, b, workers, i + 1, top)
  {
    assert workers[..i + 1] == workers[..i] + [workers[i]];
    assert i > 0 ==> workers[i] != workers[0] && workers[0] in workers[..i];
  }

  lemma NotYetDrained(start: Sets, now: Sets, workers: seq<string>, i: nat, top: int)
    requires i < |workers| && Distinct(workers) && StoppedUpTo(start, now, workers, i, top) && workers[i] in now
    ensures workers[i] in start && now[workers[i]] == start[workers[i]]
  {
  }

  /** The ramp set alone is scaled further. */
  lemma StoppedHigher(start: Sets, a: Sets, b: Sets, workers: seq<string>, top: int, top': int)
    requires workers != [] && Stopped(start, a, workers, top) && OnlyScaled(a, b, workers[0])
    requires workers[0] in b ==> Reps(b[workers[0]]) == top'
    ensures Stopped(start, b, workers, top')
  {
    assert workers[..|workers|] == workers;
  }

  lemma SameSize(a: Sets, b: Sets)
    requires a.Keys == b.Keys
    ensures |a| == |b|
  {
    assert |a| == |a.Keys| && |b| == |b.Keys|;
  }

  lemma FirstIsAlone(workers: seq<string>, i: nat)
    requires i < |workers| && Distinct(workers)
    ensures workers[i] == workers[0] <==> i == 0
  {
  }

  lemma SameSets(a: Sets, b: Sets, name: string)
    requires OnlyScaled(a, b, name)
    ensures b.Keys == a.Keys
  {
  }

  lemma StillStopped(start: Sets, a: Sets, b: Sets, workers: seq<string>, top: int)
    requires Stopped(start, a, workers, top) && forall n :: n in b ==> n in a && b[n] == a[n]
    ensures Stopped(start, b, workers, top)
  {
  }

  lemma StoppedScaled(start: Sets, a: Sets, b: Sets, workers: seq<string>, top: int, top': int, same: bool)
    requires workers != [] && Stopped(start, a, workers, top) && OnlyScaled(a, b, workers[0])
    requires if same then a == b && top == top' else workers[0] in b && Reps(b[workers[0]]) == top'
    ensures Stopped(start, b, workers, top')
  {
    if !same { StoppedHigher(start, a, b, workers, top, top'); }
  }

  lemma RampIsRecorded(workers: seq<string>, originals: map<string, int>)
    requires workers != [] && originals.Keys == set w | w in workers
    ensures workers[0] in originals && |originals| <= |workers|
  {
    SetOfSeq(workers);
  }

  /** The ramp set stays, unless its name marks it as a leftover. */
  lemma StartHasRamp(start: Sets, now: Sets, workers: seq<string>, originals: Option<map<string, int>>)
    requires Recorded(start, now, originals) && workers != [] && workers[0] in start
    ensures !IsLeftover(workers[0]) ==> workers[0] in now
  {
  }

  lemma OthersStay(start: Sets, now: Sets, originals: Option<map<string, int>>)
    requires Recorded(start, now, originals)
    ensures forall n :: n in start && !("perf-bench-" <= n) && !("perf-newml-" <= n) ==> n in now
  {
  }

  lemma RecordedKeys(start: Sets, now: Sets, originals: Option<map<string, int>>)
    requires Recorded(start, now, originals)
    ensures now.Keys <= start.Keys
  {
  }

  /** Where a set ends after a complete run and a working restore, from the inputs of the run alone. */
  function FinalReps(start: Sets, workers: seq<string>, top: int, n: string): int
    requires n in start
  {
    if n !in workers || Reps(start[n]) > 0 then Reps(start[n])
    else if n == workers[0] then top
    else 0
  }

  /** What AfterAll leaves behind, given where the run stopped. */
  lemma RestoredCounts(start: Sets, stopped: Sets, workers: seq<string>, top: int, n: string)
    requires workers != [] && Stopped(start, stopped, workers, top) && n in stopped
    ensures n in start
    ensures FinalReps(start, workers, top, n) == if Reps(start[n]) > 0 then Reps(start[n]) else Reps(stopped[n])
  {
    assert workers[..|workers|] == workers;
  }

  /** Every set is back exactly when it had replicas, or is no worker, or was left at the count it started from. */
  lemma BackIff(start: Sets, workers: seq<string>, top: int, n: string)
    requires n in start
    ensures FinalReps(start, workers, top, n) == Reps(start[n]) <==>
      || n !in workers
      || Reps(start[n]) > 0
      || Reps(start[n]) == if n == workers[0] then top else 0
  {
  }

  /** The counts after a complete run and a working restore. */
  lemma FinalCounts(start: Sets, stopped: Sets, now: Sets, workers: seq<string>, top: int)
    requires workers != [] && Stopped(start, stopped, workers, top) && now.Keys == stopped.Keys
    requires forall n :: n in now ==> n in start
    requires forall n :: n in now ==>
      now[n] == stopped[n] || (Reps(start[n]) > 0 && Reps(now[n]) == Reps(start[n]))
    requires forall n :: n in now ==>
      (Reps(now[n]) == Reps(start[n]) <==> Reps(start[n]) > 0 || Reps(stopped[n]) == Reps(start[n]))
    ensures forall n :: n in now ==>
      Reps(now[n]) ==
        if n !in workers || Reps(start[n]) > 0 then Reps(start[n]) else if n == workers[0] then top else 0
    ensures forall n :: n in now ==>
      (Reps(now[n]) == Reps(start[n]) <==>
        || n !in workers
        || Reps(start[n]) > 0
        || Reps(start[n]) == if n == workers[0] then top else 0)
  {
    hide Stopped, Reps;
    forall n | n in now
      ensures Reps(now[n]) == FinalReps(start, workers, top, n)
    {
      RestoredCounts(start, stopped, workers, top, n);
    }
  }

  lemma AllRestored(start: Sets, stopped: Sets, now: Sets, originals: Option<map<string, int>>, works: bool)
    requires Recorded(start, stopped, originals) && originals.Some? && now.Keys == stopped.Keys
    requires forall n :: n in now ==> now[n] == stopped[n] || (Reps(start[n]) > 0 && Reps(now[n]) == Reps(start[n]))
    requires works ==>
      forall n :: n in now && n in originals.value && Reps(start[n]) > 0 ==> Reps(now[n]) == Reps(start[n])
    ensures works ==> forall n :: n in now ==>
      (Reps(now[n]) == Reps(start[n]) <==> Reps(start[n]) > 0 || Reps(stopped[n]) == Reps(start[n]))
  {
    hide IsLeftover, Reps;
  }

  lemma SetOfSeq(xs: seq<string>)
    ensures |set x | x in xs| <= |xs|
  {
    if xs != [] {
      SetOfSeq(Init(xs));
      assert (set x | x in xs) == (set x | x in Init(xs)) + {Last(xs)} by {
        assert xs == Init(xs) + [Last(xs)];
      }
    }
  }

  // ---------------------------------------------------------------- the ramp

  function Min(a: int, b: int): int {
    if a < b then a else b
  }

  function Max(a: int, b: int): int {
    if a < b then b else a
  }

  /** replicas after n rounds of the P1 loop. */
  function RampAt(floor: int, target: int, batch: int, n: nat): int {
    if n == 0 then floor
    else
      var before := RampAt(floor, target, batch, n - 1);
      if before < target then Min(before + batch, target) else before
  }

  /** ceil((target - floor) / batch), and no round at all from target on. */
  function RampSteps(floor: int, target: int, batch: int): nat
    requires batch >= 1
  {
    if floor >= target then 0 else (target - floor + batch - 1) / batch
  }

  /** The rounds of a ramp that ends. */
  function Rounds(floor: int, target: int, batch: int): nat
    requires floor >= target || batch >= 1
  {
    if floor >= target then 0 else RampSteps(floor, target, batch)
  }

  lemma {:induction false} RampClosedForm(floor: int, target: int, batch: int, n: nat)
    requires batch >= 1 && floor < target
    ensures RampAt(floor, target, batch, n) == Min(floor + n * batch, target)
  {
    if n > 0 {
      RampClosedForm(floor, target, batch, n - 1);
      ProductNext(n - 1, batch);
    }
  }

  lemma {:induction false} RampStuck(floor: int, target: int, batch: int, n: nat)
    requires floor < target && batch <= 0
    ensures RampAt(floor, target, batch, n) < target
  {
    if n > 0 { RampStuck(floor, target, batch, n - 1); }
  }

  lemma RampCount(floor: int, target: int, batch: int, n: nat)
    requires batch >= 1
    ensures RampAt(floor, target, batch, n) >= target <==> n >= RampSteps(floor, target, batch)
  {
    if floor >= target {
      RampStays(floor, target, batch, n);
    } else {
      RampClosedForm(floor, target, batch, n);
      CeilDivision(target - floor, batch, n);
    }
  }

  lemma {:induction false} RampStays(floor: int, target: int, batch: int, n: nat)
    requires floor >= target
    ensures RampAt(floor, target, batch, n) == floor
  {
    if n > 0 { RampStays(floor, target, batch, n - 1); }
  }

  lemma ProductMonotone(a: int, b: int, k: nat)
    requires a <= b
    ensures a * k <= b * k
  {
    assert b * k - a * k == (b - a) * k;
  }

  lemma ProductNext(n: int, k: int)
    ensures (n + 1) * k == n * k + k
  {
  }

  lemma Division(a: nat, k: nat) returns (q: nat, r: nat)
    requires k >= 1
    ensures q == a / k && a == q * k + r && r < k
  {
    q, r := a / k, a % k;
  }

  lemma CeilDivision(distance: nat, batch: nat, n: nat)
    requires batch >= 1
    ensures n * batch >= distance <==> n >= (distance + batch - 1) / batch
  {
    var q, r := Division(distance + batch - 1, batch);
    if n >= q {
      ProductMonotone(q, n, batch);
    } else {
      ProductMonotone(n + 1, q, batch);
      ProductNext(n, batch);
    }
  }

  /** The P1 loop ends exactly when there is nothing to ramp or the batch is positive, after RampSteps rounds. */
  lemma RampEndsIff(floor: int, target: int, batch: int)
    ensures (exists n: nat :: RampAt(floor, target, batch, n) >= target) <==> floor >= target || batch >= 1
    ensures batch >= 1 ==>
      && RampAt(floor, target, batch, RampSteps(floor, target, batch)) == Max(floor, target)
      && forall n: nat :: n < RampSteps(floor, target, batch) ==>
           0 < RampAt(floor, target, batch, n + 1) - RampAt(floor, target, batch, n) <= batch
  {
    if floor >= target {
      assert RampAt(floor, target, batch, 0) >= target;
      if batch >= 1 { RampStays(floor, target, batch, RampSteps(floor, target, batch)); }
    } else if batch >= 1 {
      var k := RampSteps(floor, target, batch);
      RampCount(floor, target, batch, k);
      RampClosedForm(floor, target, batch, k);
      forall n: nat | n < k
        ensures 0 < RampAt(floor, target, batch, n + 1) - RampAt(floor, target, batch, n) <= batch
      {
        RampCount(floor, target, batch, n);
      }
    } else {
      forall n: nat
        ensures RampAt(floor, target, batch, n) < target
      {
        RampStuck(floor, target, batch, n);
      }
    }
  }

  lemma RampStarts(floor: int, target: int, batch: int)
    ensures RampAt(floor, target, batch, 0) == floor
  {
  }

  lemma RampNext(floor: int, target: int, batch: int, n: nat)
    requires RampAt(floor, target, batch, n) < target
    ensures RampAt(floor, target, batch, n + 1) == Min(RampAt(floor, target, batch, n) + batch, target)
  {
  }

  lemma {:induction false} RampNotAbove(floor: int, target: int, batch: int, n: nat)
    requires floor <= target
    ensures RampAt(floor, target, batch, n) <= target
  {
    if n > 0 { RampNotAbove(floor, target, batch, n - 1); }
  }

  /** The first round count that reaches the target. */
  lemma RampFinished(floor: int, target: int, batch: int, n: nat)
    requires RampAt(floor, target, batch, n) >= target
    requires forall k :: 0 <= k < n ==> RampAt(floor, target, batch, k) < target
    ensures floor >= target || batch >= 1
    ensures RampAt(floor, target, batch, n) == Max(floor, target)
    ensures batch >= 1 ==> n == RampSteps(floor, target, batch)
  {
    RampStarts(floor, target, batch);
    if floor >= target {
      RampStays(floor, target, batch, n);
    } else {
      RampNotAbove(floor, target, batch, n);
      if batch <= 0 { RampStuck(floor, target, batch, n); }
    }
    if batch >= 1 {
      RampCount(floor, target, batch, n);
      if n > 0 { RampCount(floor, target, batch, n - 1); }
    }
  }

  /** Each ramp result is one round: its index, its count, and at least its batch of Running machines. */
  predicate RampResults(ramp: seq<StepResult>, floor: int, target: int, batch: int) {
    forall i :: 0 <= i < |ramp| ==>
      && ramp[i].index == i + 1 && ramp[i].replicasAfter == RampAt(floor, target, batch, i + 1)
      && |RunningNamesOf(ramp[i])| >= RampAt(floor, target, batch, i + 1) - RampAt(floor, target, batch, i)
  }

  lemma RampResultsOneMore(ramp: seq<StepResult>, floor: int, target: int, batch: int, r: StepResult)
    requires RampResults(ramp, floor, target, batch)
    requires r.index == |ramp| + 1 && r.replicasAfter == RampAt(floor, target, batch, |ramp| + 1)
    requires |RunningNamesOf(r)| >= RampAt(floor, target, batch, |ramp| + 1) - RampAt(floor, target, batch, |ramp|)
    ensures RampResults(ramp + [r], floor, target, batch)
  {
    hide RunningNamesOf, RampAt;
  }

  lemma RoundsLeft(floor: int, target: int, batch: int, n: nat)
    requires batch >= 1 && RampAt(floor, target, batch, n) < target
    ensures floor < target && n < Rounds(floor, target, batch)
  {
    if floor >= target { RampStays(floor, target, batch, n); }
    RampCount(floor, target, batch, n);
  }

  lemma NoRampLeft(floor: int, target: int, batch: int, n: nat)
    requires RampAt(floor, target, batch, n) < target
    ensures floor < target
  {
    if floor >= target { RampStays(floor, target, batch, n); }
  }

  /** A ramp that stops early has used no more calls than a whole one. */
  lemma RampStops(floor: int, target: int, batch: int, n: nat, calls: seq<Outcome>, left: seq<Outcome>, excused: bool)
    requires RampAt(floor, target, batch, n) < target && Spent(calls, left, 2 * n + 2, excused)
    ensures floor < target
    ensures floor >= target || batch >= 1 ==> Spent(calls, left, 2 * Rounds(floor, target, batch), excused)
  {
    hide Spent, RampAt, Rounds;
    NoRampLeft(floor, target, batch, n);
    if batch >= 1 {
      RoundsLeft(floor, target, batch, n);
      SpentLess(calls, left, 2 * n + 2, 2 * Rounds(floor, target, batch), excused, excused);
    }
  }

  lemma RoundsTaken(floor: int, target: int, batch: int, n: nat)
    requires RampAt(floor, target, batch, n) >= target
    requires forall k :: 0 <= k < n ==> RampAt(floor, target, batch, k) < target
    ensures floor >= target || batch >= 1 ==> n == Rounds(floor, target, batch)
  {
    hide RampAt, RampSteps;
    RampStarts(floor, target, batch);
    RampFinished(floor, target, batch, n);
  }

  /** Each increment's result: its count, and at least so many Running machines. */
  predicate SteadyResults(steady: seq<StepResult>, base: int, increments: seq<int>) {
    forall i :: 0 <= i < |steady| && i < |increments| ==>
      && steady[i].index == increments[i]
      && steady[i].replicasAfter == base + Sum(increments[..i + 1])
      && |RunningNamesOf(steady[i])| >= increments[i]
  }

  lemma SteadyOneMore(steady: seq<StepResult>, base: int, increments: seq<int>, r: StepResult)
    requires |steady| < |increments| && SteadyResults(steady, base, increments)
    requires r.index == increments[|steady|] && r.replicasAfter == base + Sum(increments[..|steady| + 1])
    requires |RunningNamesOf(r)| >= increments[|steady|]
    ensures SteadyResults(steady + [r], base, increments)
  {
    hide RunningNamesOf, Sum;
  }

  lemma SumOfNothing(xs: seq<int>)
    ensures Sum(xs[..0]) == 0
  {
  }

  lemma NoSteadyYet(sets: Sets, name: string, base: int, increments: seq<int>)
    ensures SteadyResults([], base, increments) && OnlyScaled(sets, sets, name)
  {
  }

  // ---------------------------------------------------------------- who was seen when

  /** The machines of the floor and of each step are pairwise different, and all seen. */
  predicate Apart(floorNames: set<string>, results: seq<StepResult>, seen: set<string>) {
    && floorNames <= seen
    && (forall i :: 0 <= i < |results| ==> Names(results[i]) <= seen && Names(results[i]) !! floorNames)
    && (forall i, j :: 0 <= i < j < |results| ==> Names(results[i]) !! Names(results[j]))
  }

  lemma ApartAtStart(floorNames: set<string>, seen: set<string>)
    requires floorNames <= seen
    ensures Apart(floorNames, [], seen)
  {
  }

  lemma ApartOneMore(floorNames: set<string>, results: seq<StepResult>, seen: set<string>, r: StepResult,
      seen': set<string>)
    requires Apart(floorNames, results, seen) && seen <= seen' && Names(r) !! seen && Names(r) <= seen'
    ensures Apart(floorNames, results + [r], seen')
  {
    hide Names;
  }

  lemma ApartLater(floorNames: set<string>, results: seq<StepResult>, seen: set<string>, seen': set<string>)
    requires Apart(floorNames, results, seen) && seen <= seen'
    ensures Apart(floorNames, results, seen')
  {
    hide Names;
  }

  // ---------------------------------------------------------------- what the step results say

  /** feed is what is left of the polls. */
  predicate LeftOf(polls: seq<Poll>, feed: seq<Poll>) {
    |feed| <= |polls| && polls[|polls| - |feed|..] == feed
  }

  /** The machines of a step have the times that some stretch of the polls shows. */
  ghost predicate Observed(r: StepResult, polls: seq<Poll>) {
    exists a, b :: 0 <= a <= b <= |polls| && AllTimed(r.machines, polls[a..b])
  }

  ghost predicate AllTimed(machines: seq<Record>, polls: seq<Poll>) {
    forall m :: m in machines ==> Timed(polls, m)
  }

  ghost predicate AllObserved(results: seq<StepResult>, polls: seq<Poll>) {
    forall i :: 0 <= i < |results| ==> Observed(results[i], polls)
  }

  lemma LeftOfLeft(polls: seq<Poll>, feed: seq<Poll>, feed': seq<Poll>)
    requires LeftOf(polls, feed) && LeftOf(feed, feed')
    ensures LeftOf(polls, feed')
  {
    assert polls[|polls| - |feed|..][|feed| - |feed'|..] == polls[|polls| - |feed'|..];
  }

  lemma GoodLeft(polls: seq<Poll>, feed: seq<Poll>)
    requires LeftOf(polls, feed) && GoodPolls(polls)
    ensures GoodPolls(feed)
  {
    forall i | 0 <= i < |feed|
      ensures GoodPoll(feed[i])
    {
      assert feed[i] == polls[|polls| - |feed| + i];
    }
  }

  lemma ObservedOneMore(results: seq<StepResult>, polls: seq<Poll>, feed: seq<Poll>, r: StepResult)
    requires AllObserved(results, polls) && LeftOf(polls, feed) && Observed(r, feed)
    ensures AllObserved(results + [r], polls)
  {
    hide AllTimed;
    var a, b :| 0 <= a <= b <= |feed| && AllTimed(r.machines, feed[a..b]);
    var k := |polls| - |feed|;
    assert feed[a..b] == polls[k + a..k + b];
    assert Observed(r, polls);
    hide Observed;
  }

  lemma LeftOfSuffix(polls: seq<Poll>, used: nat)
    requires used <= |polls|
    ensures LeftOf(polls, polls[used..])
  {
  }

  lemma LeftOfItself(feed: seq<Poll>)
    ensures LeftOf(feed, feed) && AllObserved([], feed)
  {
  }

  lemma StepObserved(polls: seq<Poll>, feed: seq<Poll>, feed': seq<Poll>, results: seq<StepResult>,
      results': seq<StepResult>, ok: bool)
    requires LeftOf(polls, feed) && LeftOf(feed, feed') && (GoodPolls(polls) ==> AllObserved(results, polls))
    requires if ok then results' != [] && results' == results + [Last(results')] else results' == results
    requires ok && GoodPolls(feed) ==> Observed(Last(results'), feed)
    ensures LeftOf(polls, feed') && (GoodPolls(polls) ==> AllObserved(results', polls))
  {
    LeftOfLeft(polls, feed, feed');
    if GoodPolls(polls) && ok {
      GoodLeft(polls, feed);
      ObservedOneMore(results, polls, feed, Last(results'));
    }
  }

  lemma ObservedAll(results: seq<StepResult>, more: seq<StepResult>, polls: seq<Poll>, feed: seq<Poll>)
    requires AllObserved(results, polls) && LeftOf(polls, feed) && AllObserved(more, feed)
    ensures AllObserved(results + more, polls)
    decreases |more|
  {
    hide Observed;
    if more == [] {
      assert results + more == results;
    } else {
      ObservedAll(results, Init(more), polls, feed);
      ObservedOneMore(results + Init(more), polls, feed, Last(more));
      assert results + more == results + Init(more) + [Last(more)];
    }
  }

  lemma NewMachinesTimed(polls: seq<Poll>, earlier: set<string>, machines: seq<Record>)
    requires GoodPolls(polls) && Lists(ObservePolls(polls) - earlier, machines)
    ensures AllTimed(machines, polls)
  {
    hide Timed, ObservePolls;
    var recs := ObservePolls(polls) - earlier;
    forall m | m in machines
      ensures Timed(polls, m)
    {
      var listed := set x | x in machines;
      assert m in listed && listed == set n | n in recs :: recs[n];
      var n :| n in recs && recs[n] == m;
      RecordsAreTimed(polls, n);
    }
  }

  lemma StepIsObserved(polls: seq<Poll>, used: nat, earlier: set<string>, r: StepResult)
    requires used <= |polls| && Lists(ObservePolls(polls[..used]) - earlier, r.machines)
    ensures LeftOf(polls, polls[used..])
    ensures GoodPolls(polls) ==> Observed(r, polls)
  {
    hide Timed, ObservePolls, Lists, AllTimed;
    if GoodPolls(polls) {
      assert GoodPolls(polls[..used]) by { FirstPollsAreGood(polls, used); }
      NewMachinesTimed(polls[..used], earlier, r.machines);
      assert polls[0..used] == polls[..used];
    }
  }

  // ---------------------------------------------------------------- the run

  class Bench {
    var sets: Sets
    var outcomes: seq<Outcome>
    /** Every request so far, in order. */
    var asked: seq<Request>
    /** What the next polls of the ramp MachineSet's machines return. */
    var feed: seq<Poll>

    var originals: Option<map<string, int>>
    var rampMS: string
    var current: int
    var seen: set<string>
    var ramp: seq<StepResult>
    var steady: seq<StepResult>

    /** The machines of the ramp set when the ramp started. */
    ghost var floorNames: set<string>

    constructor (sets: Sets, outcomes: seq<Outcome>, feed: seq<Poll>)
      ensures this.sets == sets && this.outcomes == outcomes && this.feed == feed
      ensures originals == None && ramp == [] && steady == [] && seen == {} && floorNames == {} && asked == []
    {
      this.sets, this.outcomes, this.feed, asked := sets, outcomes, feed, [];
      originals, rampMS, current, seen, ramp, steady, floorNames := None, "", 0, {}, [], [], {};
    }

    method Call(request: Request) returns (o: Outcome)
      modifies `outcomes, `asked
      ensures o == (if old(outcomes) == [] then Fails else old(outcomes)[0])
      ensures outcomes == (if old(outcomes) == [] then [] else old(outcomes)[1..])
      ensures asked == old(asked) + [request] && (o.Works? ==> Worked(old(outcomes), 1, outcomes))
      ensures Spent(old(outcomes), outcomes, 1, o.Works?)
    {
      asked := asked + [request];
      if outcomes == [] {
        return Fails;
      }
      o := outcomes[0];
      outcomes := outcomes[1..];
    }

    method ScaleMachineSet(name: string, replicas: int32) returns (ok: bool)
      modifies `sets, `outcomes, `asked
      ensures ok <==> old(outcomes) != [] && old(outcomes)[0].Works? && name in old(sets)
      ensures outcomes == (if old(outcomes) == [] then [] else old(outcomes)[1..])
      ensures asked == old(asked) + [Scale(name, replicas)] && (ok ==> Worked(old(outcomes), 1, outcomes))
      ensures Spent(old(outcomes), outcomes, 1, ok || name !in old(sets))
      ensures ok ==> sets == old(sets)[name := Some(replicas)]
      ensures sets == old(sets) || (name in old(sets) && sets == old(sets)[name := Some(replicas)])
    {
      var o := Call(Scale(name, replicas));
      if o.Fails? || name !in sets {
        return false;
      }
      sets := sets[name := Some(replicas)];
      return o.Works?;
    }

    // -------------------------------------------------------------- watching new machines

    /** After the i-th poll, and not only the last one, enough new machines are Running. */
    ghost predicate EnoughAt(polls: seq<Poll>, i: nat, earlier: set<string>, wanted: int)
      requires i < |polls|
    {
      polls[i].Listed? && |RunningRecords(ObservePolls(polls[..i + 1]) - earlier)| >= wanted
    }

    /** watchNewMachinePhases: the records of machines first seen in this step. */
    method WatchNewMachinePhases(wanted: int) returns (ok: bool, machines: seq<Record>, ghost used: nat)
      modifies `feed, `seen
      ensures used <= |old(feed)| && feed == old(feed)[used..]
      ensures seen == old(seen) + ObservePolls(old(feed)[..used]).Keys
      ensures ok ==> Lists(ObservePolls(old(feed)[..used]) - old(seen), machines)
      ensures ok ==> |RunningRecords(ObservePolls(old(feed)[..used]) - old(seen))| >= wanted
      ensures ok || feed == []
      ensures ok ==> used > 0 && EnoughAt(old(feed), used - 1, old(seen), wanted)
      ensures forall i :: 0 <= i < used && (!ok || i < used - 1) ==> !EnoughAt(old(feed), i, old(seen), wanted)
    {
      hide ObservePolls, ObserveMachines, RunningRecords, Lists;
      ghost var feed0 := feed;
      var recs: Records := map[];
      used := 0;
      machines := [];
      NoPolls();
      while feed != []
        invariant used <= |feed0| && feed == feed0[used..]
        invariant seen == old(seen) + ObservePolls(feed0[..used]).Keys
        invariant recs == ObservePolls(feed0[..used]) - old(seen)
        invariant forall i :: 0 <= i < used ==> !EnoughAt(feed0, i, old(seen), wanted)
        decreases |feed|
      {
        var p := feed[0];
        feed := feed[1..];
        OneMorePoll(feed0, used);
        ghost var all := ObservePolls(feed0[..used]);
        used := used + 1;
        if p.ListError? {
          continue;
        }
        recs := TrackNew(recs, p, old(seen), all);
        var running := CountRecordsRunning(recs);
        if running >= wanted {
          machines := ListRecords(recs);
          return true, machines, used;
        }
      }
      ok := false;
    }

    method TrackNew(recs: Records, p: Poll, ghost earlier: set<string>, ghost all: Records) returns (after: Records)
      requires p.Listed? && recs == all - earlier && seen == earlier + all.Keys
      modifies `seen
      ensures after == ObserveMachines(all, p.machines, p.now) - earlier
      ensures seen == earlier + ObserveMachines(all, p.machines, p.now).Keys
    {
      after := recs;
      assert p.machines[..0] == [] && p.machines[..|p.machines|] == p.machines;
      for i := 0 to |p.machines|
        invariant after == ObserveMachines(all, p.machines[..i], p.now) - earlier
        invariant seen == earlier + ObserveMachines(all, p.machines[..i], p.now).Keys
      {
        hide ObserveMachines;
        OneMoreMachine(all, p.machines, i, p.now);
        after := TrackMachine(after, p.machines[i], p.now, earlier, ObserveMachines(all, p.machines[..i], p.now));
      }
    }

    /** A machine is tracked from its first sight in this step on. */
    method TrackMachine(recs: Records, m: Machine, now: Time, ghost earlier: set<string>, ghost all: Records)
      returns (after: Records)
      requires recs == all - earlier && seen == earlier + all.Keys
      modifies `seen
      ensures after == ObserveMachine(all, m, now) - earlier && seen == earlier + ObserveMachine(all, m, now).Keys
    {
      hide Observe;
      after := recs;
      if m.deleting {
        return;
      }
      if m.name !in seen {
        seen := seen + {m.name};
        after := after[m.name := Record(m.name, m.created, 0, 0, 0)];
      }
      if m.name !in after {
        return;
      }
      var rec := ObservePhase(after[m.name], PhaseOf(m), now);
      after := after[m.name := rec];
    }

    // -------------------------------------------------------------- one step

    /** The machines of all steps so far, and of the floor, are pairwise different and all seen. */
    ghost predicate Partitioned()
      reads this
    {
      Apart(floorNames, ramp + steady, seen)
    }

    method RunSteadyStep(index: int, after: int) returns (ok: bool, res: StepResult)
      modifies `sets, `outcomes, `asked, `feed, `seen, `current
      ensures ok ==>
        |old(outcomes)| >= 2 && old(outcomes)[0].Works? && old(outcomes)[1].Works? && outcomes == old(outcomes)[2..]
      ensures ok ==> asked == old(asked) + [Scale(rampMS, Int32(after)), AwaitNodes]
      ensures ok ==> Worked(old(outcomes), 2, outcomes)
      ensures Spent(old(outcomes), outcomes, 2, ok || feed == [] || rampMS !in old(sets))
      ensures old(seen) <= seen
      ensures LeftOf(old(feed), feed) && (ok && GoodPolls(old(feed)) ==> Observed(res, old(feed)))
      ensures OnlyScaled(old(sets), sets, rampMS)
      ensures ok ==>
        && res.index == index && res.replicasAfter == after && current == after
        && rampMS in sets && sets[rampMS] == Some(Int32(after))
        && Names(res) !! old(seen) && Names(res) <= seen
        && |RunningNamesOf(res)| >= after - old(current)
    {
      hide ObservePolls, RunningRecords, Lists, Names, RunningNamesOf, LeftOf, Observed, GoodPolls, Worked, Spent;
      SpentNothing(outcomes);
      NothingWorked(outcomes);
      LeftOfItself(feed);
      ghost var calls0 := outcomes;
      res := StepResult(index, after, []);
      var batch := after - current;
      ok := ScaleMachineSet(rampMS, Int32(after));
      ghost var calls := outcomes;
      SpentLess(calls0, calls, 1, 2, ok || rampMS !in old(sets),
        ok || feed == [] || rampMS !in old(sets));
      if !ok {
        return;
      }
      ghost var before, feed0 := seen, feed;
      var machines;
      ghost var used;
      ok, machines, used := WatchNewMachinePhases(batch);
      LeftOfSuffix(feed0, used);
      if !ok {
        SpentLess(calls0, calls, 1, 2, true, true);
        return;
      }
      var nodes := Call(AwaitNodes);
      SpentThen(calls0, calls, 1, outcomes, 1, nodes.Works?);
      SpentLess(calls0, outcomes, 2, 2, nodes.Works?, nodes.Works? || feed == [] || rampMS !in old(sets));
      if !nodes.Works? {
        return false, res;
      }
      WorkedThen(calls0, 1, calls, 1, outcomes);
      current := after;
      res := StepResult(index, after, machines);
      StepIsObserved(feed0, used, before, res);
      KeysAreNames(feed0[..used]);
      ListedNames(ObservePolls(feed0[..used]) - before, res);
    }

    // -------------------------------------------------------------- P0

    method DrainOne(name: string, listed: Option<int32>, keep: int, ghost start: Sets)
      returns (ok: bool, ghost reqs: seq<Request>)
      requires Recorded(start, sets, originals) && sets.Keys == start.Keys && originals.Some?
      requires name in start && sets[name] == listed == start[name]
      modifies `sets, `outcomes, `asked, `originals
      ensures Recorded(start, sets, originals) && OnlyScaled(old(sets), sets, name)
      ensures originals == Some(old(originals).value[name := Reps(listed)])
      ensures ok ==> Reps(sets[name]) == Int32(keep)
      ensures Spent(old(outcomes), outcomes, 2, ok)
      ensures ok ==> asked == old(asked) + reqs && Worked(old(outcomes), |reqs|, outcomes)
      ensures reqs ==
        if Reps(listed) > keep then [Scale(name, Int32(keep))]
        else if Reps(listed) < keep then [Scale(name, Int32(keep)), AwaitRunning(name, keep)]
        else []
    {
      hide IsLeftover, Recorded, Spent, Worked;
      ghost var before := outcomes;
      SpentNothing(before);
      var reps := if listed.Some? then listed.value else 0;
      originals := Some(originals.value[name := reps]);
      RecordedOneMore(start, sets, old(originals).value, name);
      reqs := [];
      assert Worked(before, 0, outcomes) by { NothingWorked(before); }
      if reps > keep {
        reqs := [Scale(name, Int32(keep))];
        ok := ScaleMachineSet(name, Int32(keep));
        RecordedWhenScaled(start, old(sets), sets, name, originals);
        SpentLess(before, outcomes, 1, 2, ok, ok);
        return;
      } else if reps < keep {
        reqs := [Scale(name, Int32(keep)), AwaitRunning(name, keep)];
        ok := ScaleMachineSet(name, Int32(keep));
        RecordedWhenScaled(start, old(sets), sets, name, originals);
        if !ok {
          SpentLess(before, outcomes, 1, 2, ok, ok);
          return;
        }
        ghost var scaled := outcomes;
        var running := Call(AwaitRunning(name, keep));
        if running.Works? { WorkedThen(before, 1, scaled, 1, outcomes); }
        SpentThen(before, scaled, 1, outcomes, 1, running.Works?);
        return running.Works?, reqs;
      }
      SpentLess(before, outcomes, 0, 2, true, true);
      return true, reqs;
    }

    /** One round of the drain. */
    method DrainRound(workers: seq<string>, i: nat, listed: Option<int32>, floor: int, ghost start: Sets,
        ghost reqs: seq<Request>)
      returns (ok: bool, ghost more: seq<Request>)
      requires i < |workers| && Distinct(workers) && forall w :: w in workers ==> w in start
      requires Recorded(start, sets, originals) && sets.Keys == start.Keys && originals.Some?
      requires originals.value.Keys == FirstNames(workers, i) && listed == start[workers[i]]
      requires StoppedUpTo(start, sets, workers, i, Int32(floor)) && ScalesAsked(start, workers, i, floor, reqs)
      modifies `sets, `outcomes, `asked, `originals
      ensures Recorded(start, sets, originals) && sets.Keys == start.Keys && originals.Some?
      ensures originals.value.Keys == FirstNames(workers, i + 1)
      ensures Spent(old(outcomes), outcomes, 2, ok)
      ensures ok ==> StoppedUpTo(start, sets, workers, i + 1, Int32(floor))
      ensures ok ==> asked == old(asked) + more && Worked(old(outcomes), |more|, outcomes)
      ensures ok ==> ScalesAsked(start, workers, i + 1, floor, reqs + more)
    {
      hide IsLeftover, Int32, Spent, Recorded, StoppedUpTo, OnlyScaled, Distinct, Worked, ScalesAsked, FirstNames;
      SameInRange(0);
      var name := workers[i];
      ghost var counts := sets;
      OneMoreName(workers, i);
      NotYetDrained(start, sets, workers, i, Int32(floor));
      FirstIsAlone(workers, i);
      ok, more := DrainOne(name, listed, if name == workers[0] then floor else 0, start);
      SameSets(counts, sets, name);
      if ok {
        ScalesOneMore(start, workers, i, floor, reqs, more);
        StoppedOneMore(start, counts, sets, workers, i, Int32(floor));
      }
    }

    /** Records each worker set's count and scales it to what it keeps. */
    method Drain(workers: seq<string>, floor: int, ghost start: Sets)
      returns (ok: bool, ghost reqs: seq<Request>)
      requires workers != [] && Distinct(workers) && sets == start && forall w :: w in workers ==> w in start
      requires originals == Some(map[])
      modifies `sets, `outcomes, `asked, `originals
      ensures Recorded(start, sets, originals) && sets.Keys == start.Keys && originals.Some?
      ensures ok ==> originals.value.Keys == FirstNames(workers, |workers|)
      ensures ok ==> Stopped(start, sets, workers, Int32(floor))
      ensures Spent(old(outcomes), outcomes, 2 * |workers|, ok)
      ensures ok ==> asked == old(asked) + reqs && Worked(old(outcomes), |reqs|, outcomes)
      ensures ok ==> ScalesAsked(start, workers, |workers|, floor, reqs)
    {
      hide IsLeftover, Int32, Spent, Recorded, StoppedUpTo, OnlyScaled, Distinct, Worked, ScalesAsked, FirstNames;
      ghost var before := outcomes;
      SpentNothing(before);
      NothingWorked(before);
      NoScalesYet(start, workers, floor);
      reqs := [];
      RecordedAtStart(start);
      NoneDrained(start, workers, Int32(floor));
      var listed := sets;
      for i := 0 to |workers|
        invariant Recorded(start, sets, originals) && sets.Keys == start.Keys && originals.Some?
        invariant originals.value.Keys == FirstNames(workers, i)
        invariant StoppedUpTo(start, sets, workers, i, Int32(floor))
        invariant Spent(before, outcomes, 2 * i, true)
        invariant asked == old(asked) + reqs && Worked(before, |reqs|, outcomes)
        invariant ScalesAsked(start, workers, i, floor, reqs)
      {
        ghost var calls := outcomes;
        ghost var more;
        ok, more := DrainRound(workers, i, listed[workers[i]], floor, start, reqs);
        SpentThen(before, calls, 2 * i, outcomes, 2, ok);
        if !ok {
          SpentLess(before, outcomes, 2 * i + 2, 2 * |workers|, ok, ok);
          return;
        }
        WorkedThen(before, |reqs|, calls, |more|, outcomes);
        reqs := reqs + more;
      }
      return true, reqs;
    }

    method WaitForDrains(workers: seq<string>, floor: int) returns (ok: bool, ghost reqs: seq<Request>)
      requires workers != [] && Distinct(workers)
      requires originals.Some? && forall w :: w in workers ==> w in originals.value
      modifies `outcomes, `asked
      ensures Spent(old(outcomes), outcomes, 1 + |workers|, ok)
      ensures ok ==> asked == old(asked) + reqs && Worked(old(outcomes), |reqs|, outcomes)
      ensures ok ==> WaitsAsked(originals.value, workers, |workers|, floor, reqs)
    {
      hide Spent, Worked, WaitsAsked;
      NothingWorked(outcomes);
      reqs := [];
      ghost var before := outcomes;
      SpentNothing(before);
      SpentLess(before, outcomes, 0, 1, true, true);
      if originals.value[workers[0]] > floor {
        var drained := Call(AwaitDrained(workers[0], floor));
        if !drained.Works? {
          SpentLess(before, outcomes, 1, 1 + |workers|, false, false);
          return false, reqs;
        }
        reqs := [AwaitDrained(workers[0], floor)];
      }
      WaitsStart(originals.value, workers, floor, reqs);
      for i := 0 to |workers|
        invariant Spent(before, outcomes, 1 + i, true)
        invariant asked == old(asked) + reqs && Worked(before, |reqs|, outcomes)
        invariant WaitsAsked(originals.value, workers, i, floor, reqs)
      {
        ghost var calls := outcomes;
        SpentLess(before, outcomes, 1 + i, 2 + i, true, true);
        if workers[i] == workers[0] || originals.value[workers[i]] == 0 {
          assert i == 0 || originals.value[workers[i]] == 0 by { FirstIsAlone(workers, i); }
          WaitsOneMore(originals.value, workers, i, floor, reqs, []);
          assert reqs + [] == reqs;
          continue;
        }
        var drained := Call(AwaitDrained(workers[i], 0));
        SpentThen(before, calls, 1 + i, outcomes, 1, drained.Works?);
        if !drained.Works? {
          SpentLess(before, outcomes, 2 + i, 1 + |workers|, false, false);
          return false, reqs;
        }
        WorkedThen(before, |reqs|, calls, 1, outcomes);
        WaitsOneMore(originals.value, workers, i, floor, reqs, [AwaitDrained(workers[i], 0)]);
        reqs := reqs + [AwaitDrained(workers[i], 0)];
      }
      return true, reqs;
    }

    /** Deletes one set if it is a leftover. */
    method DeleteOne(name: string, ghost start: Sets) returns (ok: bool, ghost more: seq<Request>)
      requires Recorded(start, sets, originals) && name in sets
      modifies `sets, `outcomes, `asked
      ensures Recorded(start, sets, originals)
      ensures sets == old(sets) || (IsLeftover(name) && sets == old(sets) - {name})
      ensures Spent(old(outcomes), outcomes, 1, ok)
      ensures ok ==> asked == old(asked) + more && Worked(old(outcomes), |more|, outcomes)
      ensures ok ==> if IsLeftover(name) then name !in sets && more == [DeleteSet(name)] else more == []
    {
      hide Spent, Reps, Worked, IsLeftover;
      ghost var before := outcomes;
      SpentNothing(before);
      NothingWorked(before);
      SpentLess(before, outcomes, 0, 1, true, true);
      if !IsLeftover(name) {
        return true, [];
      }
      var o := Call(DeleteSet(name));
      if !o.Fails? {
        RecordedWithout(start, sets, originals, name);
        sets := sets - {name};
      }
      return o.Works?, [DeleteSet(name)];
    }

    /** What is left to look at is still there, like everything that is no leftover. */
    ghost predicate Deleting(all: Sets, names: set<string>, reqs: seq<Request>)
      reads this
    {
      && (forall n :: n in sets ==> n in all && sets[n] == all[n])
      && (forall n :: n in all && (n in names || !IsLeftover(n)) ==> n in sets)
      && (forall n :: n in all && n !in names && IsLeftover(n) ==> n !in sets && DeleteSet(n) in reqs)
    }

    method DeleteLeftovers(ghost start: Sets) returns (ok: bool, ghost reqs: seq<Request>)
      requires Recorded(start, sets, originals)
      modifies `sets, `outcomes, `asked
      ensures Recorded(start, sets, originals)
      ensures forall n :: n in sets ==> n in old(sets) && sets[n] == old(sets)[n]
      ensures Spent(old(outcomes), outcomes, |old(sets)|, ok)
      ensures ok ==> asked == old(asked) + reqs && Worked(old(outcomes), |reqs|, outcomes)
      ensures ok ==> Cleaned(old(sets), sets) && DeletesAsked(old(sets), reqs)
    {
      hide Spent, Recorded, Worked, IsLeftover;
      ghost var before := outcomes;
      SpentNothing(before);
      NothingWorked(before);
      reqs := [];
      var names := sets.Keys;
      ghost var done := 0;
      while names != {}
        invariant done + |names| == |old(sets)| && names <= old(sets).Keys
        invariant Recorded(start, sets, originals) && Deleting(old(sets), names, reqs)
        invariant Spent(before, outcomes, done, true)
        invariant asked == old(asked) + reqs && Worked(before, |reqs|, outcomes)
      {
        var name :| name in names;
        ghost var calls := outcomes;
        names := names - {name};
        ghost var more;
        ok, more := DeleteOne(name, start);
        SpentThen(before, calls, done, outcomes, 1, ok);
        done := done + 1;
        if !ok {
          SpentLess(before, outcomes, done, |old(sets)|, false, false);
          return;
        }
        WorkedThen(before, |reqs|, calls, |more|, outcomes);
        reqs := reqs + more;
      }
      DeletedAll(old(sets), sets, reqs);
      return true, reqs;
    }

    /** The scaling of P0, and the rest of it. */
    method DrainAndSettle(workers: seq<string>, floor: int, floorMachines: seq<string>, ghost start: Sets)
      returns (ok: bool, ghost scales: seq<Request>, ghost waits: seq<Request>, ghost deletes: seq<Request>)
      requires originals == Some(map[]) && ramp == [] && steady == [] && sets == start
      requires workers != [] && Distinct(workers) && forall w :: w in workers ==> w in sets
      modifies `sets, `outcomes, `asked, `originals, `rampMS, `seen, `floorNames, `current
      ensures Recorded(start, sets, originals) && originals.Some?
      ensures ok ==>
        && Partitioned() && floorNames == (set m | m in floorMachines) && current == floor && rampMS == workers[0]
        && originals.value.Keys == FirstNames(workers, |workers|) && Stopped(start, sets, workers, Int32(floor))
      ensures ok ==> Cleaned(start, sets) && ScalesAsked(start, workers, |workers|, floor, scales)
      ensures ok ==> WaitsAsked(Counts(start), workers, |workers|, floor, waits) && DeletesAsked(start, deletes)
      ensures ok ==> Worked(old(outcomes), |scales| + |waits| + |deletes| + 2, outcomes)
      ensures ok ==> asked == old(asked) + scales + waits + deletes + [ListMachines(workers[0]), AwaitNodes]
      ensures Spent(old(outcomes), outcomes, 3 * |workers| + |start| + 3, ok)
    {
      hide Partitioned, Int32, IsLeftover, Spent, Distinct, Stopped, Reps, Cleaned, Worked, ScalesAsked, WaitsAsked,
        DeletesAsked, Recorded, Counts, FirstNames;
      ghost var before, w := outcomes, |workers|;
      waits, deletes := [], [];
      ok, scales := Drain(workers, floor, start);
      SpentLess(before, outcomes, 2 * w, if ok then 2 * w else 3 * w + |start| + 3, ok, ok);
      if !ok {
        return;
      }
      ghost var calls := outcomes;
      AllNames(workers);
      ok, waits, deletes := Settle(workers, floor, floorMachines, start);
      SpentThen(before, calls, 2 * w, outcomes, w + |start| + 3, ok);
      if ok {
        WorkedThen(before, |scales|, calls, |waits| + |deletes| + 2, outcomes);
        WaitsOfStart(start, sets, originals, workers, floor, waits);
      }
    }

    /** floorMachines are the ramp set's machines once it is drained. */
    method P0(workers: seq<string>, floor: int, floorMachines: seq<string>)
      returns (ok: bool, ghost reqs: seq<Request>)
      requires originals == None && ramp == [] && steady == []
      requires Distinct(workers) && forall w :: w in workers ==> w in sets
      modifies this
      ensures Recorded(old(sets), sets, originals) && ramp == [] && steady == [] && feed == old(feed)
      ensures ok ==>
        && Partitioned() && floorNames == (set m | m in floorMachines)
        && current == floor && workers != [] && rampMS == workers[0]
        && originals.Some? && originals.value.Keys == (set w | w in workers)
        && Stopped(old(sets), sets, workers, Int32(floor))
      ensures ok ==> Cleaned(old(sets), sets) && P0Asked(old(sets), workers, floor, reqs)
      ensures ok ==> asked == old(asked) + reqs && Worked(old(outcomes), |reqs|, outcomes)
      ensures Spent(old(outcomes), outcomes, P0Calls(|workers|, |old(sets)|), ok || workers == [])
    {
      hide Partitioned, Int32, IsLeftover, Spent, Distinct, Stopped, Reps, Cleaned, Worked, ScalesAsked, WaitsAsked,
        DeletesAsked, P0Asked, Counts, Recorded;
      reqs := [];
      ghost var start, before := sets, outcomes;
      ghost var all := P0Calls(|workers|, |sets|);
      RecordedAtStart(start);
      var listed := Call(ListWorkers);
      if !listed.Works? || workers == [] {
        SpentLess(before, outcomes, 1, all, listed.Works?, workers == []);
        return false, reqs;
      }
      originals := Some(map[]);
      ghost var calls := outcomes;
      ghost var scales, waits, deletes;
      ok, scales, waits, deletes := DrainAndSettle(workers, floor, floorMachines, start);
      SpentThen(before, calls, 1, outcomes, all - 1, ok);
      if ok {
        AllNames(workers);
        WorkedThen(before, 1, calls, |scales| + |waits| + |deletes| + 2, outcomes);
        AllP0Asked(start, workers, floor, scales, waits, deletes);
        reqs := [ListWorkers] + scales + waits + deletes + [ListMachines(workers[0]), AwaitNodes];
      }
    }

    /** The rest of P0, after the scaling. */
    method Settle(workers: seq<string>, floor: int, floorMachines: seq<string>, ghost start: Sets)
      returns (ok: bool, ghost waits: seq<Request>, ghost deletes: seq<Request>)
      requires workers != [] && Distinct(workers) && ramp == [] && steady == []
      requires Recorded(start, sets, originals) && sets.Keys == start.Keys
      requires Stopped(start, sets, workers, Int32(floor))
      requires originals.Some? && forall w :: w in workers ==> w in originals.value
      modifies `sets, `outcomes, `asked, `rampMS, `seen, `floorNames, `current
      ensures Recorded(start, sets, originals)
      ensures ok ==>
        && Partitioned() && floorNames == (set m | m in floorMachines)
        && current == floor && rampMS == workers[0] && Stopped(start, sets, workers, Int32(floor))
      ensures Spent(old(outcomes), outcomes, |workers| + |start| + 3, ok)
      ensures ok ==> Cleaned(start, sets) && Worked(old(outcomes), |waits| + |deletes| + 2, outcomes)
      ensures ok ==> asked == old(asked) + waits + deletes + [ListMachines(workers[0]), AwaitNodes]
      ensures ok ==> WaitsAsked(originals.value, workers, |workers|, floor, waits) && DeletesAsked(start, deletes)
    {
      hide Partitioned, Int32, IsLeftover, Apart, Spent, Stopped, Reps, Recorded, Worked, WaitsAsked,
        DeletesAsked, Distinct;
      deletes := [];
      ghost var before, w, counts := outcomes, |workers|, sets;
      ghost var all := w + |start| + 3;
      SameSize(sets, start);
      ok, waits := WaitForDrains(workers, floor);
      SpentLess(before, outcomes, 1 + w, if ok then 1 + w else all, ok, ok);
      if !ok {
        return;
      }
      ghost var calls, n := outcomes, |waits|;
      ok, deletes := DeleteLeftovers(start);
      SameLeftovers(start, counts, sets, deletes);
      StillStopped(start, counts, sets, workers, Int32(floor));
      SpentThen(before, calls, 1 + w, outcomes, |start|, ok);
      SpentLess(before, outcomes, 1 + w + |start|, if ok then 1 + w + |start| else all, ok, ok);
      if !ok {
        return;
      }
      WorkedThen(before, n, calls, |deletes|, outcomes);
      n := n + |deletes|;
      rampMS := workers[0];
      calls := outcomes;
      ok := SeedFloor(floor, floorMachines);
      SpentThen(before, calls, 1 + w + |start|, outcomes, 2, ok);
      if ok { WorkedThen(before, n, calls, 2, outcomes); }
    }

    /** Marks the machines that are already there, so that the ramp counts only newer ones. */
    method SeedFloor(floor: int, floorMachines: seq<string>) returns (ok: bool)
      requires ramp == [] && steady == []
      modifies `seen, `floorNames, `current, `outcomes, `asked
      ensures ok ==> Partitioned() && floorNames == (set m | m in floorMachines) && current == floor
      ensures Spent(old(outcomes), outcomes, 2, ok)
      ensures ok ==> asked == old(asked) + [ListMachines(rampMS), AwaitNodes] && Worked(old(outcomes), 2, outcomes)
    {
      hide Spent, Worked, Apart;
      ghost var before := outcomes;
      var machines := Call(ListMachines(rampMS));
      SpentLess(before, outcomes, 1, 2, machines.Works?, machines.Works?);
      if !machines.Works? {
        return false;
      }
      ghost var calls, reqs := outcomes, asked;
      for i := 0 to |floorMachines|
        invariant forall m :: m in floorMachines[..i] ==> m in seen
        invariant outcomes == calls && asked == reqs
      {
        seen := seen + {floorMachines[i]};
      }
      assert floorMachines[..|floorMachines|] == floorMachines;
      floorNames := set m | m in floorMachines;
      current := floor;
      ApartAtStart(floorNames, seen);
      assert ramp + steady == [];
      var settled := Call(AwaitNodes);
      if settled.Works? { WorkedThen(before, 1, calls, 1, outcomes); }
      SpentThen(before, calls, 1, outcomes, 1, settled.Works?);
      return settled.Works?;
    }

    // -------------------------------------------------------------- P1 and P2

    method RampRound(i: int, replicas: int, ghost polls: seq<Poll>, ghost calls: seq<Outcome>,
        ghost reqs: seq<Request>, ghost start: Sets)
      returns (ok: bool)
      requires OnlyScaled(start, sets, rampMS) && Spent(calls, outcomes, 2 * |ramp|, true)
      requires Worked(calls, |reqs|, outcomes) && StepsAsked(rampMS, ramp, reqs)
      requires LeftOf(polls, feed) && (GoodPolls(polls) ==> AllObserved(ramp, polls))
      requires Partitioned() && steady == []
      modifies `sets, `outcomes, `asked, `feed, `seen, `current, `ramp
      ensures Partitioned() && OnlyScaled(start, sets, rampMS)
      ensures Spent(calls, outcomes, 2 * |old(ramp)| + 2, ok || feed == [] || rampMS !in start)
      ensures ok ==> |outcomes| < |old(outcomes)| && Worked(calls, |reqs| + 2, outcomes)
      ensures ok ==> StepsAsked(rampMS, ramp, reqs + [Scale(rampMS, Int32(replicas)), AwaitNodes])
      ensures ok ==> asked == old(asked) + [Scale(rampMS, Int32(replicas)), AwaitNodes]
      ensures !ok ==> ramp == old(ramp)
      ensures LeftOf(polls, feed) && (GoodPolls(polls) ==> AllObserved(ramp, polls))
      ensures ok ==>
        && current == replicas && rampMS in sets && sets[rampMS] == Some(Int32(current))
        && ramp != [] && ramp == old(ramp) + [Last(ramp)]
        && Last(ramp).index == i && Last(ramp).replicasAfter == replicas
        && |RunningNamesOf(Last(ramp))| >= replicas - old(current)
    {
      hide RunningNamesOf, Names, Apart, Int32, Spent, OnlyScaled, Worked, StepsAsked, Observed, AllObserved,
        GoodPolls, LeftOf;
      ghost var feed0, ramp0, counts := feed, ramp, sets;
      ghost var before, results := seen, ramp;
      assert ramp + steady == results;
      var res;
      ok, res := RunSteadyStep(i, replicas);
      ScaledAgain(start, counts, sets, rampMS);
      SameSets(start, counts, rampMS);
      SpentThen(calls, old(outcomes), 2 * |ramp0|, outcomes, 2, ok || feed == [] || rampMS !in start);
      if !ok {
        StepObserved(polls, feed0, feed, ramp0, ramp, ok);
        ApartLater(floorNames, results, before, seen);
        return;
      }
      ApartOneMore(floorNames, results, before, res, seen);
      WorkedThen(calls, |reqs|, old(outcomes), 2, outcomes);
      StepsOneMore(rampMS, ramp, reqs, res);
      ramp := ramp + [res];
      assert ramp + steady == results + [res];
      StepObserved(polls, feed0, feed, ramp0, ramp, ok);
    }

    method P1(floor: int, target: int, batch: int) returns (ok: bool, ghost reqs: seq<Request>)
      requires Partitioned() && current == floor && ramp == [] && steady == []
      modifies `sets, `outcomes, `asked, `feed, `seen, `current, `ramp
      ensures Partitioned() && RampResults(ramp, floor, target, batch)
      ensures OnlyScaled(old(sets), sets, rampMS)
      ensures ok ==>
        && (floor >= target || batch >= 1) && current == Max(floor, target)
        && (batch >= 1 ==> |ramp| == RampSteps(floor, target, batch))
        && (if ramp == [] then sets == old(sets) && current == floor
            else rampMS in sets && sets[rampMS] == Some(Int32(current)))
      ensures floor >= target || batch >= 1 ==>
        Spent(old(outcomes), outcomes, 2 * Rounds(floor, target, batch), ok || feed == [] || rampMS !in old(sets))
      ensures floor >= target ==> feed == old(feed)
      ensures ok ==> asked == old(asked) + reqs && Worked(old(outcomes), |reqs|, outcomes)
      ensures ok ==> StepsAsked(rampMS, ramp, reqs)
      ensures LeftOf(old(feed), feed) && (GoodPolls(old(feed)) ==> AllObserved(ramp, old(feed)))
    {
      hide Partitioned, RunningNamesOf, Names, RampSteps, Rounds, Apart, Int32, RampAt, RampResults, OnlyScaled, Spent,
        AllWork, Worked, StepsAsked,
        AllObserved, GoodPolls, LeftOf;
      reqs := [];
      NothingWorked(outcomes);
      LeftOfItself(feed);
      NoStepsYet(rampMS);
      NothingYet(sets, rampMS, floor, target, batch);
      RampStarts(floor, target, batch);
      SpentNothing(outcomes);
      var replicas := floor;
      var i := 1;
      while replicas < target
        invariant |ramp| == i - 1 && replicas == RampAt(floor, target, batch, i - 1) && current == replicas
        invariant forall k :: 0 <= k < i - 1 ==> RampAt(floor, target, batch, k) < target
        invariant Partitioned() && RampResults(ramp, floor, target, batch)
        invariant OnlyScaled(old(sets), sets, rampMS)
        invariant if ramp == [] then sets == old(sets) else rampMS in sets && sets[rampMS] == Some(Int32(current))
        invariant Spent(old(outcomes), outcomes, 2 * |ramp|, true)
        invariant ramp == [] ==> feed == old(feed)
        invariant asked == old(asked) + reqs && Worked(old(outcomes), |reqs|, outcomes)
        invariant StepsAsked(rampMS, ramp, reqs)
        invariant LeftOf(old(feed), feed) && (GoodPolls(old(feed)) ==> AllObserved(ramp, old(feed)))
        decreases |outcomes|
      {
        RampNext(floor, target, batch, i - 1);
        replicas := replicas + batch;
        if replicas > target {
          replicas := target;
        }
        ghost var results := ramp;
        ok := RampRound(i, replicas, old(feed), old(outcomes), reqs, old(sets));
        if !ok {
          RampStops(floor, target, batch, i - 1, old(outcomes), outcomes, feed == [] || rampMS !in old(sets));
          return;
        }
        reqs := reqs + [Scale(rampMS, Int32(replicas)), AwaitNodes];
        RampResultsOneMore(results, floor, target, batch, Last(ramp));
        i := i + 1;
      }
      RampFinished(floor, target, batch, i - 1);
      RoundsTaken(floor, target, batch, i - 1);
      return true, reqs;
    }

    method IncrementRound(increment: int, ghost polls: seq<Poll>, ghost calls: seq<Outcome>,
        ghost reqs: seq<Request>, ghost start: Sets)
      returns (ok: bool)
      requires OnlyScaled(start, sets, rampMS) && Spent(calls, outcomes, 2 * |steady|, true)
      requires Worked(calls, |reqs|, outcomes) && StepsAsked(rampMS, steady, reqs)
      requires LeftOf(polls, feed) && (GoodPolls(polls) ==> AllObserved(steady, polls))
      requires Partitioned()
      modifies `sets, `outcomes, `asked, `feed, `seen, `current, `steady
      ensures Partitioned() && OnlyScaled(start, sets, rampMS)
      ensures Spent(calls, outcomes, 2 * |old(steady)| + 2, ok || feed == [] || rampMS !in start)
      ensures !ok ==> steady == old(steady)
      ensures LeftOf(polls, feed) && (GoodPolls(polls) ==> AllObserved(steady, polls))
      ensures ok ==> asked == old(asked) + [Scale(rampMS, Int32(current)), AwaitNodes]
      ensures ok ==> Worked(calls, |reqs| + 2, outcomes)
      ensures ok ==> StepsAsked(rampMS, steady, reqs + [Scale(rampMS, Int32(current)), AwaitNodes])
      ensures ok ==>
        && current == old(current) + increment && rampMS in sets && sets[rampMS] == Some(Int32(current))
        && steady != [] && steady == old(steady) + [Last(steady)]
        && Last(steady).index == increment && Last(steady).replicasAfter == current
        && |RunningNamesOf(Last(steady))| >= increment
    {
      hide RunningNamesOf, Names, Apart, Int32, Spent, OnlyScaled, Worked, StepsAsked, Observed, AllObserved,
        GoodPolls, LeftOf;
      ghost var feed0, steady0, counts := feed, steady, sets;
      ghost var before, results := seen, ramp + steady;
      var res;
      ok, res := RunSteadyStep(increment, current + increment);
      ScaledAgain(start, counts, sets, rampMS);
      SameSets(start, counts, rampMS);
      SpentThen(calls, old(outcomes), 2 * |steady0|, outcomes, 2, ok || feed == [] || rampMS !in start);
      if !ok {
        StepObserved(polls, feed0, feed, steady0, steady, ok);
        ApartLater(floorNames, results, before, seen);
        return;
      }
      ApartOneMore(floorNames, results, before, res, seen);
      WorkedThen(calls, |reqs|, old(outcomes), 2, outcomes);
      StepsOneMore(rampMS, steady, reqs, res);
      steady := steady + [res];
      assert ramp + steady == results + [res];
      StepObserved(polls, feed0, feed, steady0, steady, ok);
    }

    method P2(increments: seq<int>) returns (ok: bool, ghost reqs: seq<Request>)
      requires Partitioned() && steady == []
      modifies `sets, `outcomes, `asked, `feed, `seen, `current, `steady
      ensures Partitioned() && OnlyScaled(old(sets), sets, rampMS)
      ensures |steady| <= |increments| && SteadyResults(steady, old(current), increments)
      ensures ok ==> |steady| == |increments| && current == old(current) + Sum(increments)
      ensures ok && increments != [] ==> rampMS in sets && sets[rampMS] == Some(Int32(current))
      ensures ok && increments == [] ==> sets == old(sets)
      ensures Spent(old(outcomes), outcomes, 2 * |increments|, ok || feed == [] || rampMS !in old(sets))
      ensures increments == [] ==> feed == old(feed)
      ensures ok ==> asked == old(asked) + reqs && Worked(old(outcomes), |reqs|, outcomes)
      ensures ok ==> StepsAsked(rampMS, steady, reqs)
      ensures LeftOf(old(feed), feed) && (GoodPolls(old(feed)) ==> AllObserved(steady, old(feed)))
    {
      hide Partitioned, RunningNamesOf, Names, Apart, SteadyResults, Int32, Spent, OnlyScaled, Sum, Worked, StepsAsked,
        AllObserved, GoodPolls, LeftOf;
      reqs := [];
      NothingWorked(outcomes);
      LeftOfItself(feed);
      NoStepsYet(rampMS);
      assert Sum(increments[..0]) == 0 by { SumOfNothing(increments); }
      NoSteadyYet(sets, rampMS, current, increments);
      SpentNothing(outcomes);
      for i := 0 to |increments|
        invariant |steady| == i && current == old(current) + Sum(increments[..i])
        invariant Partitioned() && OnlyScaled(old(sets), sets, rampMS)
        invariant SteadyResults(steady, old(current), increments)
        invariant if i == 0 then sets == old(sets) else rampMS in sets && sets[rampMS] == Some(Int32(current))
        invariant Spent(old(outcomes), outcomes, 2 * i, true)
        invariant i == 0 ==> feed == old(feed)
        invariant asked == old(asked) + reqs && Worked(old(outcomes), |reqs|, outcomes)
        invariant StepsAsked(rampMS, steady, reqs)
        invariant LeftOf(old(feed), feed) && (GoodPolls(old(feed)) ==> AllObserved(steady, old(feed)))
      {
        assert increments[..i + 1] == increments[..i] + [increments[i]];
        SumOneMore(increments[..i], increments[i]);
        ghost var results := steady;
        ok := IncrementRound(increments[i], old(feed), old(outcomes), reqs, old(sets));
        if !ok {
          SpentLess(old(outcomes), outcomes, 2 * i + 2, 2 * |increments|,
            feed == [] || rampMS !in old(sets), feed == [] || rampMS !in old(sets));
          return;
        }
        reqs := reqs + [Scale(rampMS, Int32(current)), AwaitNodes];
        SteadyOneMore(results, old(current), increments, Last(steady));
      }
      assert increments[..|increments|] == increments;
      return true, reqs;
    }

    // -------------------------------------------------------------- AfterAll

    /** The calls that AfterAll may make all succeed. */
    ghost predicate ScalesWork()
      reads this
    {
      originals.Some? ==>
        FirstWork(outcomes, |originals.value|)
    }

    /** While AfterAll walks the record: names are still to be looked at. */
    ghost predicate Restoring(start: Sets, stopped: Sets, names: set<string>, works: bool, reqs: seq<Request>)
      reads this
      requires originals.Some? && forall n :: n in stopped ==> n in start
      requires forall n :: n in originals.value ==> n in start
    {
      && sets.Keys == stopped.Keys
      && (forall n :: n in sets ==> sets[n] == stopped[n] || (Reps(start[n]) > 0 && Reps(sets[n]) == Reps(start[n])))
      && (forall n :: n in sets && n in names ==> sets[n] == stopped[n])
      && (forall n :: n in originals.value && n !in names && Reps(start[n]) > 0 ==>
        Scale(n, Int32(Reps(start[n]))) in reqs)
      && (works ==> forall n :: n in sets && n in originals.value && n !in names && Reps(start[n]) > 0 ==>
        Reps(sets[n]) == Reps(start[n]))
    }

    /** Asks for one recorded count. */
    method RestoreOne(name: string, ghost start: Sets, ghost stopped: Sets, ghost names: set<string>,
        ghost works: bool, ghost reqs: seq<Request>)
      returns (ghost more: seq<Request>)
      requires originals.Some? && (forall n :: n in stopped ==> n in start)
      requires (forall n :: n in originals.value ==> n in start && originals.value[n] == Reps(start[n]))
      requires name in names && name in originals.value && Restoring(start, stopped, names, works, reqs)
      requires works ==> FirstWork(outcomes, |names|)
      modifies `sets, `outcomes, `asked
      ensures Restoring(start, stopped, names - {name}, works, reqs + more) && asked == old(asked) + more
      ensures works ==> FirstWork(outcomes, |names| - 1)
    {
      hide IsLeftover, Int32, Spent, Worked;
      if works { assert FirstWork(outcomes, |names| - 1); }
      var reps := originals.value[name];
      if reps <= 0 {
        assert reqs + [] == reqs;
        return [];
      }
      SameInRange(Reps(start[name]));
      more := [Scale(name, Int32(reps))];
      var ok := ScaleMachineSet(name, Int32(reps));
    }

    /** Every set ends where it started exactly when it had replicas to restore or never moved. */
    method AfterAll(ghost start: Sets) returns (ghost reqs: seq<Request>)
      requires Recorded(start, sets, originals)
      modifies `sets, `outcomes, `asked
      ensures sets.Keys == old(sets).Keys
      ensures asked == old(asked) + reqs
      ensures originals.Some? ==> reqs != [] && Last(reqs) == AwaitNodes
      ensures originals.Some? ==> forall n :: n in originals.value && Reps(start[n]) > 0 ==>
        Scale(n, Int32(Reps(start[n]))) in reqs
      ensures forall n :: n in sets ==>
        sets[n] == old(sets)[n] || (Reps(start[n]) > 0 && Reps(sets[n]) == Reps(start[n]))
      ensures old(ScalesWork()) ==> forall n :: n in sets ==>
        (Reps(sets[n]) == Reps(start[n]) <==> Reps(start[n]) > 0 || Reps(old(sets)[n]) == Reps(start[n]))
    {
      hide IsLeftover, Int32, Spent, Worked, Reps, FirstWork;
      reqs := [];
      if originals.None? {
        return;
      }
      var names := originals.value.Keys;
      ghost var works := ScalesWork();
      while names != {}
        invariant names <= originals.value.Keys && (works ==> FirstWork(outcomes, |names|))
        invariant Restoring(start, old(sets), names, works, reqs) && asked == old(asked) + reqs
      {
        var name :| name in names;
        ghost var more := RestoreOne(name, start, old(sets), names, works, reqs);
        reqs := reqs + more;
        names := names - {name};
      }
      AllRestored(start, old(sets), sets, originals, works);
      var ready := Call(AwaitNodes);
      reqs := reqs + [AwaitNodes];
    }

    // -------------------------------------------------------------- the ordered run

    /** P1 and P2. */
    method Steps(floor: int, target: int, batch: int, increments: seq<int>)
      returns (ok: bool, ghost steps: seq<Request>)
      requires Partitioned() && current == floor && ramp == [] && steady == []
      modifies `sets, `outcomes, `asked, `feed, `seen, `current, `ramp, `steady
      ensures OnlyScaled(old(sets), sets, rampMS)
      ensures ok ==>
        && (floor >= target || batch >= 1)
        && Partitioned() && RampResults(ramp, floor, target, batch)
        && SteadyResults(steady, Max(floor, target), increments) && |steady| == |increments|
        && current == Max(floor, target) + Sum(increments)
        && if ramp == [] && steady == [] then sets == old(sets) && current == floor
           else rampMS in sets && sets[rampMS] == Some(Int32(current))
      ensures floor >= target || batch >= 1 ==>
        Spent(old(outcomes), outcomes, 2 * Rounds(floor, target, batch) + 2 * |increments|,
          ok || feed == [] || rampMS !in old(sets))
      ensures floor >= target && increments == [] ==> feed == old(feed)
      ensures ok ==> asked == old(asked) + steps && Worked(old(outcomes), |steps|, outcomes)
      ensures ok ==> StepsAsked(rampMS, ramp + steady, steps)
      ensures GoodPolls(old(feed)) ==> AllObserved(ramp + steady, old(feed))
    {
      hide Partitioned, Apart, RampAt, Spent, OnlyScaled, Int32, RampResults, SteadyResults, Rounds, RampSteps, Worked,
        StepsAsked, Sum, AllObserved, GoodPolls, LeftOf;
      ghost var start, before, polls := sets, outcomes, feed;
      ghost var n := if floor >= target || batch >= 1 then 2 * Rounds(floor, target, batch) else 0;
      ok, steps := P1(floor, target, batch);
      if floor >= target || batch >= 1 {
        SpentLess(before, outcomes, n, if ok then n else n + 2 * |increments|, ok || feed == [] || rampMS !in start,
          ok || feed == [] || rampMS !in start);
      }
      if !ok {
        assert ramp + steady == ramp;
        return;
      }
      ghost var counts, calls, feed1 := sets, outcomes, feed;
      SameSets(start, counts, rampMS);
      SumOfNothing(increments);
      ghost var more;
      ok, more := P2(increments);
      if GoodPolls(polls) {
        GoodLeft(polls, feed1);
        ObservedAll(ramp, steady, polls, feed1);
      }
      ScaledAgain(start, counts, sets, rampMS);
      SpentThen(before, calls, n, outcomes, 2 * |increments|, ok || feed == [] || rampMS !in counts);
      if ok {
        WorkedThen(before, |steps|, calls, |more|, outcomes);
        StepsThenSteps(rampMS, ramp, steps, steady, more);
        steps := steps + more;
        if increments == [] { assert increments[..0] == increments; }
      }
    }

    /** P0, P1 and P2, each only after the one before succeeded. */
    method Specs(workers: seq<string>, floor: int, target: int, batch: int, increments: seq<int>,
        floorMachines: seq<string>)
      returns (ok: bool, ghost drain: seq<Request>, ghost steps: seq<Request>)
      requires originals == None && ramp == [] && steady == []
      requires Distinct(workers) && forall w :: w in workers ==> w in sets
      modifies this
      ensures Recorded(old(sets), sets, originals)
      ensures ok ==>
        && (floor >= target || batch >= 1)
        && Partitioned() && RampResults(ramp, floor, target, batch) && floorNames == (set m | m in floorMachines)
        && SteadyResults(steady, Max(floor, target), increments) && |steady| == |increments|
        && current == Max(floor, target) + Sum(increments)
        && workers != [] && Stopped(old(sets), sets, workers, Int32(current))
        && originals.Some? && originals.value.Keys == (set w | w in workers)
      ensures (floor >= target || batch >= 1) && workers != [] && !IsLeftover(workers[0]) ==>
        Spent(old(outcomes), outcomes, RunCalls(|workers|, |old(sets)|, floor, target, batch, |increments|),
          ok || feed == [])
      ensures floor >= target && increments == [] ==> feed == old(feed)
      ensures ok ==> Cleaned(old(sets), sets)
      ensures GoodPolls(old(feed)) ==> AllObserved(ramp + steady, old(feed))
      ensures ok ==> asked == old(asked) + drain + steps && Worked(old(outcomes), |drain| + |steps|, outcomes)
      ensures ok ==> P0Asked(old(sets), workers, floor, drain) && StepsAsked(workers[0], ramp + steady, steps)
    {
      hide Partitioned, Recorded, Apart, RampAt, IsLeftover, Spent, Stopped, OnlyScaled, Int32, RampResults,
        SteadyResults, Distinct, Rounds, RampSteps, Cleaned, Worked, P0Asked, StepsAsked, Sum, P0Calls,
        Observed, GoodPolls;
      steps := [];
      ghost var start, before := sets, outcomes;
      ghost var ends := floor >= target || batch >= 1;
      ghost var n0 := P0Calls(|workers|, |sets|);
      ghost var n1 := if ends then 2 * Rounds(floor, target, batch) + 2 * |increments| else 0;
      ok, drain := P0(workers, floor, floorMachines);
      if !ok {
        SpentLess(before, outcomes, n0, n0 + n1, workers == [], workers == [] || feed == []);
        return;
      }
      ghost var counts, calls := sets, outcomes;
      RampIsRecorded(workers, originals.value);
      StartHasRamp(start, sets, workers, originals);
      ok, steps := Steps(floor, target, batch, increments);
      RecordedWhenScaled(start, counts, sets, rampMS, originals);
      if ends && !IsLeftover(workers[0]) {
        SpentThen(before, calls, n0, outcomes, n1, ok || feed == [] || rampMS !in counts);
      }
      if ok {
        StillCleaned(start, counts, sets, rampMS);
        WorkedThen(before, |drain|, calls, |steps|, outcomes);
        StoppedScaled(start, counts, sets, workers, Int32(floor), Int32(current), ramp == [] && steady == []);
      }
    }

    /**
     The whole container. Wherever the run stopped, AfterAll restores what it can; after a
     complete run that is decided by the inputs: every set ends at its start except a
     worker set that started at zero or less and was left at another count.
     */
    method Run(workers: seq<string>, floor: int, target: int, batch: int, increments: seq<int>,
        floorMachines: seq<string>)
      returns (ok: bool, ghost stopped: Sets, ghost works: bool)
      requires originals == None && ramp == [] && steady == []
      requires Distinct(workers) && forall w :: w in workers ==> w in sets
      modifies this
      ensures Recorded(old(sets), stopped, originals) && sets.Keys == stopped.Keys <= old(sets).Keys
      ensures works ==> forall n :: n in sets ==>
        (Reps(sets[n]) == Reps(old(sets)[n]) <==> Reps(old(sets)[n]) > 0 || Reps(stopped[n]) == Reps(old(sets)[n]))
      ensures ok && works ==> forall n :: n in sets ==>
        Reps(sets[n]) ==
          if n !in workers || Reps(old(sets)[n]) > 0 then Reps(old(sets)[n])
          else if n == workers[0] then Int32(Max(floor, target) + Sum(increments))
          else 0
      ensures ok && works ==> forall n :: n in sets ==>
        (Reps(sets[n]) == Reps(old(sets)[n]) <==>
          || n !in workers
          || Reps(old(sets)[n]) > 0
          || Reps(old(sets)[n]) == if n == workers[0] then Int32(Max(floor, target) + Sum(increments)) else 0)
      ensures Provided(workers, |old(sets)|, floor, target, batch, |increments|, old(outcomes)) ==>
        (ok ==> works) && (ok || feed == [])
      ensures floor >= target && increments == [] ==> feed == old(feed)
      ensures originals.Some? ==> asked != [] && Last(asked) == AwaitNodes
      ensures GoodPolls(old(feed)) ==> AllObserved(ramp + steady, old(feed))
      ensures ok ==> forall n :: n in sets <==> n in old(sets) && !("perf-bench-" <= n) && !("perf-newml-" <= n)
      ensures forall n :: n in old(sets) && !("perf-bench-" <= n) && !("perf-newml-" <= n) ==> n in sets
    {
      hide Partitioned, Apart, RampAt, RampResults, SteadyResults, Distinct, Rounds, RampSteps, IsLeftover, RunCalls,
        Worked, P0Asked, StepsAsked, AllObserved, GoodPolls, Stopped, Sum, Int32, Spent, Reps;
      ghost var drain, steps;
      ghost var start, before := sets, outcomes;
      ok, drain, steps := Specs(workers, floor, target, batch, increments, floorMachines);
      stopped, works := sets, ScalesWork();
      SetOfSeq(workers);
      if Provided(workers, |start|, floor, target, batch, |increments|, before) {
        ProvidedWorks(before, outcomes, RunCalls(|workers|, |start|, floor, target, batch, |increments|), |workers|,
          ok || feed == []);
      }
      RecordedKeys(start, sets, originals);
      OthersStay(start, sets, originals);
      ghost var restores := AfterAll(start);
      assert restores != [] ==> Last(asked) == Last(restores);
      if ok && works {
        FinalCounts(start, stopped, sets, workers, Int32(current));
      }
    }
  }

  /** The most calls that P0 makes for so many worker sets and MachineSets. */
  function P0Calls(workers: nat, sets: nat): nat {
    3 * workers + sets + 4
  }

  function RunCalls(workers: nat, sets: nat, floor: int, target: int, batch: int, increments: nat): nat
    requires floor >= target || batch >= 1
  {
    P0Calls(workers, sets) + 2 * Rounds(floor, target, batch) + 2 * increments
  }

  /** The ramp can end, its set is not taken for a leftover, and all calls up to the last restore work. */
  predicate Provided(workers: seq<string>, sets: nat, floor: int, target: int, batch: int, increments: nat,
      calls: seq<Outcome>) {
    && (floor >= target || batch >= 1)
    && workers != [] && !IsLeftover(workers[0])
    && AllWork(calls) && |calls| >= RunCalls(|workers|, sets, floor, target, batch, increments) + |workers|
  }

  lemma ZeroStartIsProvided(calls: seq<Outcome>)
    requires AllWork(calls) && |calls| == 13
    ensures Provided(["w"], 1, 2, 2, 10, 0, calls) && Distinct(["w"])
    ensures FinalReps(map["w" := Some(0)], ["w"], Int32(Max(2, 2) + Sum([])), "w") == 2
  {
    hide RampSteps, RampAt;
  }

  /** A ramp set that starts at zero is bootstrapped to the floor, and keeps it. */
  method ZeroStartKeepsReplicas() returns (bench: Bench)
    ensures fresh(bench) && "w" in bench.sets && Reps(bench.sets["w"]) == 2
  {
    var calls := seq(13, _ => Works);
    bench := new Bench(map["w" := Some(0)], calls, [ListError]);
    assert !IsLeftover("w");
    ZeroStartIsProvided(calls);
    hide IsLeftover, Recorded, Provided, FinalReps, Distinct;
    var ok, stopped, works := bench.Run(["w"], 2, 2, 10, [], []);
  }

  lemma SameInRange(n: int32)
    ensures Int32(n) == n
  {
  }

  lemma RecordedAtStart(start: Sets)
    ensures Recorded(start, start, None) && Recorded(start, start, Some(map[]))
  {
  }

  lemma NothingYet(sets: Sets, name: string, floor: int, target: int, batch: int)
    ensures RampResults([], floor, target, batch) && OnlyScaled(sets, sets, name)
  {
  }

  lemma ScaledAgain(a: Sets, b: Sets, c: Sets, name: string)
    requires OnlyScaled(a, b, name) && OnlyScaled(b, c, name)
    ensures OnlyScaled(a, c, name)
  {
  }

  lemma RecordedOneMore(start: Sets, now: Sets, originals: map<string, int>, name: string)
    requires Recorded(start, now, Some(originals)) && name in start
    ensures Recorded(start, now, Some(originals[name := Reps(start[name])]))
  {
    hide IsLeftover;
  }

  lemma RecordedWhenScaled(start: Sets, a: Sets, b: Sets, name: string, originals: Option<map<string, int>>)
    requires Recorded(start, a, originals) && OnlyScaled(a, b, name) && originals.Some? && name in originals.value
    ensures Recorded(start, b, originals)
  {
    hide IsLeftover;
  }

  lemma OneMoreMachine(recs: Records, machines: seq<Machine>, i: nat, now: Time)
    requires i < |machines|
    ensures ObserveMachines(recs, machines[..i + 1], now)
      == ObserveMachine(ObserveMachines(recs, machines[..i], now), machines[i], now)
  {
    assert machines[..i + 1][..i] == machines[..i];
  }

  lemma NoPolls()
    ensures ObservePolls([]) == map[]
  {
  }

  lemma OneMorePoll(polls: seq<Poll>, i: nat)
    requires i < |polls|
    ensures ObservePolls(polls[..i + 1]) ==
      if polls[i].ListError? then ObservePolls(polls[..i])
      else ObserveMachines(ObservePolls(polls[..i]), polls[i].machines, polls[i].now)
  {
    assert polls[..i + 1][..i] == polls[..i];
  }

  /** Only one MachineSet's count may differ. */
  predicate OnlyScaled(a: Sets, b: Sets, name: string) {
    b.Keys == a.Keys && forall n :: n in a && n != name ==> b[n] == a[n]
  }

  predicate Lists(recs: Records, machines: seq<Record>) {
    |machines| == |recs| && (set m | m in machines) == set n | n in recs :: recs[n]
  }

  function RunningNamesOf(r: StepResult): set<string> {
    set m | m in r.machines && m.running != 0 :: m.name
  }

  predicate NamesMatch(recs: Records) {
    forall n :: n in recs ==> recs[n].name == n
  }

  lemma {:induction false} MachinesNamesMatch(recs: Records, machines: seq<Machine>, now: Time)
    requires NamesMatch(recs)
    ensures NamesMatch(ObserveMachines(recs, machines, now))
  {
    if machines != [] { MachinesNamesMatch(recs, machines[..|machines| - 1], now); }
  }

  lemma {:induction false} KeysAreNames(polls: seq<Poll>)
    ensures NamesMatch(ObservePolls(polls))
  {
    if polls != [] {
      var n := |polls| - 1;
      KeysAreNames(polls[..n]);
      if polls[n].Listed? { MachinesNamesMatch(ObservePolls(polls[..n]), polls[n].machines, polls[n].now); }
    }
  }

  lemma ListedNames(recs: Records, r: StepResult)
    requires NamesMatch(recs) && Lists(recs, r.machines)
    ensures Names(r) == recs.Keys && RunningNamesOf(r) == RunningRecords(recs)
  {
    var listed := set n | n in recs :: recs[n];
    assert forall m :: m in r.machines <==> m in (set x | x in r.machines);
    forall n | n in recs
      ensures recs[n] in r.machines
    {
      assert recs[n] in listed;
    }
    forall m | m in r.machines
      ensures m.name in recs && recs[m.name] == m
    {
      assert m in listed;
    }
  }

  method CountRecordsRunning(recs: Records) returns (running: nat)
    ensures running == |RunningRecords(recs)|
  {
    running := 0;
    var keys := recs.Keys;
    while keys != {}
      invariant keys <= recs.Keys
      invariant running == |RunningRecords(recs) - keys|
    {
      var k :| k in keys;
      assert k in RunningRecords(recs) <==> recs[k].running != 0;
      hide RunningRecords;
      OneFewer(RunningRecords(recs), keys, k);
      if recs[k].running != 0 {
        running := running + 1;
      }
      keys := keys - {k};
    }
    assert RunningRecords(recs) - {} == RunningRecords(recs);
  }

  lemma OneFewer(all: set<string>, keys: set<string>, k: string)
    requires k in keys
    ensures |all - (keys - {k})| == |all - keys| + if k in all then 1 else 0
  {
    assert all - (keys - {k}) == (all - keys) + if k in all then {k} else {};
  }

  method ListRecords(recs: Records) returns (machines: seq<Record>)
    ensures Lists(recs, machines)
  {
    machines := [];
    var keys := recs.Keys;
    while keys != {}
      invariant keys <= recs.Keys && |machines| + |keys| == |recs|
      invariant (set m | m in machines) == set n | n in recs && n !in keys :: recs[n]
    {
      var k :| k in keys;
      ghost var before, left := machines, keys;
      machines, keys := machines + [recs[k]], keys - {k};
      assert (set m | m in machines) == (set m | m in before) + {recs[k]};
      assert (set n | n in recs && n !in keys :: recs[n]) == (set n | n in recs && n !in left :: recs[n]) + {recs[k]};
    }
  }
}
