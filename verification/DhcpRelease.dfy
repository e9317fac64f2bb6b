/**
 ReleaseDHCPLeases (pkg/framework/node.go): one goroutine per node, a channel of
 capacity 20 used as a semaphore, a mutex around `released++`, and a WaitGroup.
 A step of the system is one atomic effect of one goroutine or of the caller;
 the increment is two steps, so only the mutex makes the count exact.
 */
module DhcpRelease {
  import opened Wrappers
  import opened Seqs

  const CAPACITY: nat := 20

  /** What came of the `oc debug` command for one node. */
  datatype Command = Command(deadlinePassed: bool, failed: bool, ioTimeout: bool)

  /** releaseDHCPOnNode returns nil: a kill by the timeout and a broken log stream both mean the interface went down. */
  predicate IsNil(r: Command) {
    r.deadlinePassed || !r.failed || r.ioTimeout
  }

  datatype Goroutine =
    | Unspawned
    | Blocked                // before the send on the channel
    | Releasing              // token taken, command running
    | WantsLock              // command returned nil
    | Holding                // mutex held
    | Loaded(v: int)         // released read into a register
    | Stored                 // released written back
    | Leaving(ok: bool)      // before the deferred receive from the channel
    | TokenFree(ok: bool)    // before the deferred wg.Done
    | Finished(ok: bool)

  datatype Caller = Spawning | Returned(failed: bool)

  datatype State = State(
    gs: seq<Goroutine>,
    spawned: nat,
    wg: nat,
    tokens: nat,
    mutex: Option<nat>,
    released: int,
    caller: Caller)

  datatype Action =
    | Spawn
    | Return                 // wg.Wait lets the caller go on
    | Take(g: nat)
    | Finish(g: nat, r: Command)
    | Lock(g: nat)
    | Load(g: nat)
    | Store(g: nat)
    | Unlock(g: nat)
    | FreeToken(g: nat)
    | SignalDone(g: nat)

  /** n nodes were listed; with none the caller returns nil at once. */
  function Start(n: nat): State {
    State(seq(n, _ => Unspawned), 0, 0, 0, None, 0, if n == 0 then Returned(false) else Spawning)
  }

  predicate Enabled(s: State, a: Action) {
    match a
    case Spawn => s.caller.Spawning? && s.spawned < |s.gs|
    case Return => s.caller.Spawning? && s.spawned == |s.gs| && s.wg == 0
    case Take(g) => g < |s.gs| && s.gs[g].Blocked? && s.tokens < CAPACITY
    case Finish(g, _) => g < |s.gs| && s.gs[g].Releasing?
    case Lock(g) => g < |s.gs| && s.gs[g].WantsLock? && s.mutex.None?
    case Load(g) => g < |s.gs| && s.gs[g].Holding?
    case Store(g) => g < |s.gs| && s.gs[g].Loaded?
    case Unlock(g) => g < |s.gs| && s.gs[g].Stored?
    case FreeToken(g) => g < |s.gs| && s.gs[g].Leaving? && s.tokens > 0
    case SignalDone(g) => g < |s.gs| && s.gs[g].TokenFree? && s.wg > 0
  }

  /** The goroutine a step moves. */
  function Actor(s: State, a: Action): nat
    requires Enabled(s, a) && !a.Return?
  {
    if a.Spawn? then s.spawned else a.g
  }

  function Next(s: State, a: Action): Goroutine
    requires Enabled(s, a) && !a.Return?
  {
    match a
    case Spawn => Blocked
    case Take(_) => Releasing
    case Finish(_, r) => if IsNil(r) then WantsLock else Leaving(false)
    case Lock(_) => Holding
    case Load(_) => Loaded(s.released)
    case Store(_) => Stored
    case Unlock(_) => Leaving(true)
    case FreeToken(g) => TokenFree(s.gs[g].ok)
    case SignalDone(g) => Finished(s.gs[g].ok)
  }

  function Apply(s: State, a: Action): State
    requires Enabled(s, a)
  {
    if a.Return? then s.(caller := Returned(s.released == 0)) else
    State(
      s.gs[Actor(s, a) := Next(s, a)],
      if a.Spawn? then s.spawned + 1 else s.spawned,
      if a.Spawn? then s.wg + 1 else if a.SignalDone? then s.wg - 1 else s.wg,
      if a.Take? then s.tokens + 1 else if a.FreeToken? then s.tokens - 1 else s.tokens,
      if a.Lock? then Some(a.g) else if a.Unlock? then None else s.mutex,
      if a.Store? then s.gs[a.g].v + 1 else s.released,
      s.caller)
  }

  predicate Legal(n: nat, acts: seq<Action>)
    decreases |acts|, 0
  {
    acts == [] || (Legal(n, Init(acts)) && Enabled(Run(n, Init(acts)), Last(acts)))
  }

  function Run(n: nat, acts: seq<Action>): State
    requires Legal(n, acts)
    decreases |acts|, 1
  {
    if acts == [] then Start(n) else Apply(Run(n, Init(acts)), Last(acts))
  }

  // ---------------------------------------------------------------- counting goroutines

  function Count(gs: seq<Goroutine>, p: Goroutine -> bool): nat {
    if gs == [] then 0 else Count(gs[1..], p) + if p(gs[0]) then 1 else 0
  }

  lemma {:induction false} CountUpdate(gs: seq<Goroutine>, i: nat, x: Goroutine, p: Goroutine -> bool)
    requires i < |gs|
    ensures Count(gs[i := x], p) == Count(gs, p) + (if p(x) then 1 else 0) - (if p(gs[i]) then 1 else 0)
  {
    if i > 0 {
      assert gs[i := x][1..] == gs[1..][i - 1 := x];
      CountUpdate(gs[1..], i - 1, x, p);
    } else {
      assert gs[i := x][1..] == gs[1..];
    }
  }

  lemma {:induction false} CountBounds(gs: seq<Goroutine>, p: Goroutine -> bool)
    ensures Count(gs, p) <= |gs|
    ensures Count(gs, p) == 0 <==> forall i :: 0 <= i < |gs| ==> !p(gs[i])
    ensures Count(gs, p) == |gs| <==> forall i :: 0 <= i < |gs| ==> p(gs[i])
  {
    if gs != [] {
      CountBounds(gs[1..], p);
      assert forall i :: 0 < i < |gs| ==> gs[i] == gs[1..][i - 1];
      if p(gs[0]) && Count(gs, p) == |gs| {
        assert forall i :: 0 <= i < |gs| ==> p(gs[i]);
      }
      if forall i :: 0 <= i < |gs| ==> p(gs[i]) {
        assert forall i :: 0 <= i < |gs[1..]| ==> p(gs[1..][i]);
      }
      if forall i :: 0 <= i < |gs| ==> !p(gs[i]) {
        assert forall i :: 0 <= i < |gs[1..]| ==> !p(gs[1..][i]);
      }
    }
  }

  /** Between the send and the receive on the channel. */
  predicate InSection(g: Goroutine) {
    g.Releasing? || g.WantsLock? || g.Holding? || g.Loaded? || g.Stored? || g.Leaving?
  }

  /** Added to the WaitGroup and not signalled yet. */
  predicate Outstanding(g: Goroutine) {
    !g.Unspawned? && !g.Finished?
  }

  /** Its increment of released has been stored. */
  predicate Counted(g: Goroutine) {
    g.Stored? || ((g.Leaving? || g.TokenFree? || g.Finished?) && g.ok)
  }

  /** Its command returned nil. */
  predicate Succeeded(g: Goroutine) {
    g.WantsLock? || g.Holding? || g.Loaded? || Counted(g)
  }

  predicate Answered(g: Goroutine) {
    Succeeded(g) || ((g.Leaving? || g.TokenFree? || g.Finished?) && !g.ok)
  }

  predicate HoldsMutex(g: Goroutine) {
    g.Holding? || g.Loaded? || g.Stored?
  }

  // ---------------------------------------------------------------- invariant

  ghost predicate Inv(s: State) {
    && s.spawned <= |s.gs|
    && (s.caller.Spawning? ==> |s.gs| > 0)
    && (forall i :: 0 <= i < |s.gs| ==> (s.gs[i].Unspawned? <==> s.spawned <= i))
    && s.tokens == Count(s.gs, InSection) <= CAPACITY
    && s.wg == Count(s.gs, Outstanding)
    && s.released == Count(s.gs, Counted)
    && (s.mutex.Some? ==> s.mutex.value < |s.gs| && HoldsMutex(s.gs[s.mutex.value]))
    && (forall i :: 0 <= i < |s.gs| && HoldsMutex(s.gs[i]) ==> s.mutex == Some(i))
    && (forall i :: 0 <= i < |s.gs| && s.gs[i].Loaded? ==> s.gs[i].v == s.released)
    && (s.caller.Returned? ==> forall i :: 0 <= i < |s.gs| ==> s.gs[i].Finished?)
    && (s.caller.Returned? ==> (s.caller.failed <==> |s.gs| > 0 && s.released == 0))
  }

  lemma {:induction false} StartInv(n: nat)
    ensures Inv(Start(n))
  {
    CountBounds(Start(n).gs, InSection);
    CountBounds(Start(n).gs, Outstanding);
    CountBounds(Start(n).gs, Counted);
  }

  lemma StepCounts(s: State, a: Action)
    requires Inv(s) && Enabled(s, a) && !a.Return?
    ensures var s' := Apply(s, a);
      && Count(s'.gs, InSection) == s'.tokens
      && Count(s'.gs, Outstanding) == s'.wg
      && Count(s'.gs, Counted) == s'.released
  {
    CountUpdate(s.gs, Actor(s, a), Next(s, a), InSection);
    CountUpdate(s.gs, Actor(s, a), Next(s, a), Outstanding);
    CountUpdate(s.gs, Actor(s, a), Next(s, a), Counted);
  }

  lemma StepMutex(s: State, a: Action)
    requires Inv(s) && Enabled(s, a) && !a.Return?
    ensures var s' := Apply(s, a);
      && (s'.mutex.Some? ==> s'.mutex.value < |s'.gs| && HoldsMutex(s'.gs[s'.mutex.value]))
      && (forall i :: 0 <= i < |s'.gs| && HoldsMutex(s'.gs[i]) ==> s'.mutex == Some(i))
      && (forall i :: 0 <= i < |s'.gs| && s'.gs[i].Loaded? ==> s'.gs[i].v == s'.released)
  {
    var s' := Apply(s, a);
    forall i | 0 <= i < |s'.gs| && HoldsMutex(s'.gs[i])
      ensures s'.mutex == Some(i) && (s'.gs[i].Loaded? ==> s'.gs[i].v == s'.released)
    {
      assert i != Actor(s, a) ==> s'.gs[i] == s.gs[i];
    }
  }

  lemma StepKeepsInv(s: State, a: Action)
    requires Inv(s) && Enabled(s, a)
    ensures Inv(Apply(s, a))
  {
    if a.Return? {
      CountBounds(s.gs, Outstanding);
    } else {
      StepCounts(s, a);
      StepMutex(s, a);
    }
  }

  lemma {:induction false} RunKeepsInv(n: nat, acts: seq<Action>)
    requires Legal(n, acts)
    ensures Inv(Run(n, acts)) && |Run(n, acts).gs| == n
    decreases |acts|
  {
    if acts == [] {
      StartInv(n);
    } else {
      RunKeepsInv(n, Init(acts));
      StepKeepsInv(Run(n, Init(acts)), Last(acts));
    }
  }

  // ---------------------------------------------------------------- results

  /** The channel holds one token per goroutine inside the section, never more than 20; the mutex excludes. */
  lemma BoundedParallelism(n: nat, acts: seq<Action>)
    requires Legal(n, acts)
    ensures var s := Run(n, acts);
      && s.tokens == Count(s.gs, InSection) <= 20
      && forall i, j :: 0 <= i < |s.gs| && 0 <= j < |s.gs| && HoldsMutex(s.gs[i]) && HoldsMutex(s.gs[j]) ==> i == j
  {
    RunKeepsInv(n, acts);
  }

  /** Until the caller has returned, some step is possible. */
  lemma NoDeadlock(n: nat, acts: seq<Action>) returns (a: Action)
    requires Legal(n, acts) && Run(n, acts).caller.Spawning?
    ensures Enabled(Run(n, acts), a)
  {
    RunKeepsInv(n, acts);
    var s := Run(n, acts);
    if s.spawned < |s.gs| {
      a := Spawn;
    } else if s.wg == 0 {
      a := Return;
    } else {
      CountBounds(s.gs, Outstanding);
      var i :| 0 <= i < |s.gs| && Outstanding(s.gs[i]);
      a := OutstandingCanStep(s, i);
    }
  }

  lemma OutstandingCanStep(s: State, i: nat) returns (a: Action)
    requires Inv(s) && i < |s.gs| && Outstanding(s.gs[i])
    ensures Enabled(s, a)
  {
    CountBounds(s.gs, InSection);
    CountBounds(s.gs, Outstanding);
    match s.gs[i] {
      case Blocked =>
        if s.tokens < CAPACITY {
          a := Take(i);
        } else {
          var j :| 0 <= j < |s.gs| && InSection(s.gs[j]);
          a := InSectionCanStep(s, j);
        }
      case TokenFree(_) => a := SignalDone(i);
      case _ => a := InSectionCanStep(s, i);
    }
  }

  lemma InSectionCanStep(s: State, i: nat) returns (a: Action)
    requires Inv(s) && i < |s.gs| && InSection(s.gs[i])
    ensures Enabled(s, a)
  {
    CountBounds(s.gs, InSection);
    var k := if s.gs[i].WantsLock? && s.mutex.Some? then s.mutex.value else i;
    if s.gs[k].Releasing? {
      a := Finish(k, Command(false, false, false));
    } else if s.gs[k].WantsLock? {
      a := Lock(k);
    } else if s.gs[k].Holding? {
      a := Load(k);
    } else if s.gs[k].Loaded? {
      a := Store(k);
    } else if s.gs[k].Stored? {
      a := Unlock(k);
    } else {
      a := FreeToken(k);
    }
  }

  function Rank(g: Goroutine): nat {
    match g
    case Unspawned => 9
    case Blocked => 8
    case Releasing => 7
    case WantsLock => 6
    case Holding => 5
    case Loaded(_) => 4
    case Stored => 3
    case Leaving(_) => 2
    case TokenFree(_) => 1
    case Finished(_) => 0
  }

  function TotalRank(gs: seq<Goroutine>): nat {
    if gs == [] then 0 else Rank(gs[0]) + TotalRank(gs[1..])
  }

  lemma {:induction false} TotalRankUpdate(gs: seq<Goroutine>, i: nat, x: Goroutine)
    requires i < |gs|
    ensures TotalRank(gs[i := x]) == TotalRank(gs) + Rank(x) - Rank(gs[i])
  {
    if i > 0 {
      assert gs[i := x][1..] == gs[1..][i - 1 := x];
      TotalRankUpdate(gs[1..], i - 1, x);
    } else {
      assert gs[i := x][1..] == gs[1..];
    }
  }

  lemma {:induction false} TotalRankOfStart(gs: seq<Goroutine>)
    requires forall i :: 0 <= i < |gs| ==> gs[i].Unspawned?
    ensures TotalRank(gs) == 9 * |gs|
  {
    if gs != [] {
      TotalRankOfStart(gs[1..]);
    }
  }

  function Measure(s: State): nat {
    TotalRank(s.gs) + if s.caller.Spawning? then 1 else 0
  }

  lemma StepDecreases(s: State, a: Action)
    requires Inv(s) && Enabled(s, a)
    ensures Measure(Apply(s, a)) < Measure(s)
  {
    if !a.Return? {
      TotalRankUpdate(s.gs, Actor(s, a), Next(s, a));
    }
  }

  /** Every run is finite: n nodes take at most 9n + 1 steps, whatever the schedule. */
  lemma {:induction false} RunsAreBounded(n: nat, acts: seq<Action>)
    requires Legal(n, acts)
    ensures |acts| + Measure(Run(n, acts)) <= 9 * n + 1
    decreases |acts|
  {
    if acts == [] {
      TotalRankOfStart(Start(n).gs);
    } else {
      RunsAreBounded(n, Init(acts));
      RunKeepsInv(n, Init(acts));
      StepDecreases(Run(n, Init(acts)), Last(acts));
    }
  }

  /** How many commands have returned, and how many of them nil. */
  function Answers(acts: seq<Action>): nat {
    if acts == [] then 0 else Answers(Init(acts)) + if Last(acts).Finish? then 1 else 0
  }

  function Nils(acts: seq<Action>): nat {
    if acts == [] then 0 else Nils(Init(acts)) + if Last(acts).Finish? && IsNil(Last(acts).r) then 1 else 0
  }

  /** The answers that count as a released lease, by position in the run. */
  ghost function Successes(acts: seq<Action>): set<nat> {
    set i: nat | i < |acts| && acts[i].Finish? && (acts[i].r.deadlinePassed || !acts[i].r.failed || acts[i].r.ioTimeout)
  }

  lemma {:induction false} NilsAreSuccesses(acts: seq<Action>)
    ensures Nils(acts) == |Successes(acts)|
  {
    if acts != [] {
      NilsAreSuccesses(Init(acts));
      var n := |acts| - 1;
      assert Successes(acts) == Successes(Init(acts)) + if acts[n].Finish? && IsNil(acts[n].r) then {n} else {};
    }
  }

  lemma StepAnswers(s: State, a: Action)
    requires Inv(s) && Enabled(s, a)
    ensures var s' := Apply(s, a);
      && Count(s'.gs, Succeeded) == Count(s.gs, Succeeded) + (if a.Finish? && IsNil(a.r) then 1 else 0)
      && Count(s'.gs, Answered) == Count(s.gs, Answered) + (if a.Finish? then 1 else 0)
  {
    if !a.Return? {
      CountUpdate(s.gs, Actor(s, a), Next(s, a), Succeeded);
      CountUpdate(s.gs, Actor(s, a), Next(s, a), Answered);
    }
  }

  lemma {:induction false} AnswersAreStates(n: nat, acts: seq<Action>)
    requires Legal(n, acts)
    ensures Nils(acts) == Count(Run(n, acts).gs, Succeeded)
    ensures Answers(acts) == Count(Run(n, acts).gs, Answered)
    decreases |acts|
  {
    if acts == [] {
      CountBounds(Start(n).gs, Succeeded);
      CountBounds(Start(n).gs, Answered);
    } else {
      AnswersAreStates(n, Init(acts));
      RunKeepsInv(n, Init(acts));
      StepAnswers(Run(n, Init(acts)), Last(acts));
    }
  }

  lemma {:induction false} FinishedCounts(gs: seq<Goroutine>)
    requires forall i :: 0 <= i < |gs| ==> gs[i].Finished?
    ensures Count(gs, Counted) == Count(gs, Succeeded)
    ensures Count(gs, Answered) == |gs|
    ensures Count(gs, InSection) == 0
  {
    if gs != [] {
      FinishedCounts(gs[1..]);
    }
  }

  /**
   When the caller returns, every node has answered exactly once, the channel is
   empty, the count is the number of nil answers, and an error is returned exactly
   when there were nodes and not one of them answered nil.
   */
  lemma ExactCount(n: nat, acts: seq<Action>)
    requires Legal(n, acts) && Run(n, acts).caller.Returned?
    ensures var s := Run(n, acts);
      && Answers(acts) == n
      && s.released == Nils(acts)
      && s.tokens == 0 && s.mutex.None?
      && (s.caller.failed <==> n > 0 && Nils(acts) == 0)
      && s.released == |Successes(acts)|
  {
    NilsAreSuccesses(acts);
    RunKeepsInv(n, acts);
    AnswersAreStates(n, acts);
    FinishedCounts(Run(n, acts).gs);
  }
}
