/**
 WatchMachinePhaseTimestamps (pkg/framework/machine.go): the records it keeps poll by
 poll, and what they mean: every timestamp is the clock of the first poll that showed the
 machine in that phase or a later one. A watch is a list of polls; running out of polls
 is the timeout. Time 0 is Go's zero time, which no clock shows.
 */
module PhaseWatch {
  import opened Wrappers

  type Time = nat

  datatype Record = Record(name: string, created: Time, provisioning: Time, provisioned: Time, running: Time)

  datatype Machine = Machine(name: string, created: Time, phase: Option<string>, deleting: bool)

  datatype Poll = ListError | Listed(now: Time, machines: seq<Machine>)

  type Records = map<string, Record>

  /** The phase switch, on one record. */
  function Observe(rec: Record, phase: string, now: Time): Record {
    var started := rec.(provisioning := if rec.provisioning == 0 then now else rec.provisioning);
    var cloned := started.(provisioned := if started.provisioned == 0 then now else started.provisioned);
    if phase == "Provisioning" then started
    else if phase == "Provisioned" then cloned
    else if phase == "Running" then cloned.(running := if cloned.running == 0 then now else cloned.running)
    else rec
  }

  function PhaseOf(m: Machine): string {
    m.phase.GetOr("")
  }

  function RecordOf(recs: Records, m: Machine): Record {
    if m.name in recs then recs[m.name] else Record(m.name, m.created, 0, 0, 0)
  }

  function ObserveMachine(recs: Records, m: Machine, now: Time): Records {
    if m.deleting then recs else recs[m.name := Observe(RecordOf(recs, m), PhaseOf(m), now)]
  }

  function ObserveMachines(recs: Records, machines: seq<Machine>, now: Time): Records {
    if machines == [] then recs
    else
      var n := |machines| - 1;
      ObserveMachine(ObserveMachines(recs, machines[..n], now), machines[n], now)
  }

  function ObservePolls(polls: seq<Poll>): Records {
    if polls == [] then map[]
    else
      var n := |polls| - 1;
      if polls[n].ListError? then ObservePolls(polls[..n])
      else ObserveMachines(ObservePolls(polls[..n]), polls[n].machines, polls[n].now)
  }

  predicate IsRunning(m: Machine) {
    !m.deleting && PhaseOf(m) == "Running"
  }

  function CountRunning(machines: seq<Machine>): nat {
    if machines == [] then 0
    else CountRunning(machines[..|machines| - 1]) + if IsRunning(machines[|machines| - 1]) then 1 else 0
  }

  /** The machines that are Running and not being deleted, by position. */
  ghost function RunningAt(machines: seq<Machine>): set<nat> {
    set i: nat | i < |machines| && !machines[i].deleting && machines[i].phase == Some("Running")
  }

  lemma {:induction false} CountsRunning(machines: seq<Machine>)
    ensures CountRunning(machines) == |RunningAt(machines)|
  {
    if machines != [] {
      var n := |machines| - 1;
      CountsRunning(machines[..n]);
      assert RunningAt(machines) == RunningAt(machines[..n]) + if IsRunning(machines[n]) then {n} else {};
    }
  }

  predicate Done(p: Poll, targetCount: int) {
    p.Listed? && CountRunning(p.machines) >= targetCount
  }

  /** The polls a watch looks at: up to the first that is done. */
  function Watched(polls: seq<Poll>, targetCount: int): (used: nat)
    ensures used <= |polls|
    ensures forall i :: 0 <= i < used - 1 ==> !Done(polls[i], targetCount)
    ensures used > 0 && !Done(polls[used - 1], targetCount) ==> used == |polls|
  {
    if polls == [] then 0
    else if Done(polls[0], targetCount) then 1
    else
      var used := Watched(polls[1..], targetCount);
      assert forall i :: 0 < i <= used ==> polls[i] == polls[1..][i - 1];
      used + 1
  }

  // ---------------------------------------------------------------- the watcher

  method ObservePhase(rec: Record, phase: string, now: Time) returns (r: Record)
    ensures r == Observe(rec, phase, now)
  {
    r := rec;
    if phase == "Provisioning" {
      if r.provisioning == 0 { r := r.(provisioning := now); }
    } else if phase == "Provisioned" {
      if r.provisioning == 0 { r := r.(provisioning := now); }
      if r.provisioned == 0 { r := r.(provisioned := now); }
    } else if phase == "Running" {
      if r.provisioning == 0 { r := r.(provisioning := now); }
      if r.provisioned == 0 { r := r.(provisioned := now); }
      if r.running == 0 { r := r.(running := now); }
    }
  }

  method PollOnce(recs: Records, p: Poll) returns (after: Records, running: nat)
    requires p.Listed?
    ensures after == ObserveMachines(recs, p.machines, p.now) && running == CountRunning(p.machines)
    ensures running == |RunningAt(p.machines)|
  {
    CountsRunning(p.machines);
    hide Observe, RunningAt;
    after, running := recs, 0;
    var now := p.now;
    for i := 0 to |p.machines|
      invariant after == ObserveMachines(recs, p.machines[..i], now) && running == CountRunning(p.machines[..i])
    {
      var m := p.machines[i];
      assert p.machines[..i + 1][..i] == p.machines[..i];
      if m.deleting {
        continue;
      }
      var rec := if m.name in after then after[m.name] else Record(m.name, m.created, 0, 0, 0);
      var phase := if m.phase.Some? then m.phase.value else "";
      rec := ObservePhase(rec, phase, now);
      if phase == "Running" {
        running := running + 1;
      }
      after := after[m.name := rec];
    }
    assert p.machines[..|p.machines|] == p.machines;
  }

  /** What is reported: the records in some order, and the latest Running time. */
  ghost predicate Reports(recs: Records, machines: seq<Record>, allRunning: Time) {
    && |machines| == |recs|
    && (forall i :: 0 <= i < |machines| ==> exists n :: n in recs && recs[n] == machines[i])
    && (forall n :: n in recs ==> recs[n] in machines && recs[n].running <= allRunning)
    && (allRunning != 0 ==> exists n :: n in recs && recs[n].running == allRunning)
  }

  method Report(recs: Records) returns (machines: seq<Record>, allRunning: Time)
    ensures Reports(recs, machines, allRunning)
  {
    machines, allRunning := [], 0;
    var keys := recs.Keys;
    while keys != {}
      invariant keys <= recs.Keys && |machines| + |keys| == |recs|
      invariant forall i :: 0 <= i < |machines| ==> exists n :: n in recs && recs[n] == machines[i]
      invariant forall n :: n in recs && n !in keys ==> recs[n] in machines && recs[n].running <= allRunning
      invariant allRunning != 0 ==> exists n :: n in recs && recs[n].running == allRunning
    {
      var k :| k in keys;
      var rec := recs[k];
      machines := machines + [rec];
      if rec.running != 0 && rec.running > allRunning {
        allRunning := rec.running;
      }
      keys := keys - {k};
    }
  }

  method WatchMachinePhaseTimestamps(polls: seq<Poll>, targetCount: int)
    returns (ok: bool, machines: seq<Record>, allRunning: Time, ghost recs: Records)
    ensures recs == ObservePolls(polls[..Watched(polls, targetCount)])
    ensures Reports(recs, machines, allRunning)
    ensures ok <==> exists i :: 0 <= i < |polls| && Done(polls[i], targetCount)
    ensures ok <==> exists i :: 0 <= i < |polls| && polls[i].Listed? && |RunningAt(polls[i].machines)| >= targetCount
    ensures GoodPolls(polls) ==>
      forall i :: 0 <= i < |machines| ==> Timed(polls[..Watched(polls, targetCount)], machines[i])
  {
    hide RunningAt, CountRunning, GoodPolls, Timed, Reports;
    var records: Records := map[];
    var i := 0;
    ok := false;
    while i < |polls|
      invariant 0 <= i <= |polls|
      invariant records == ObservePolls(polls[..i])
      invariant forall j :: 0 <= j < i ==> !Done(polls[j], targetCount)
    {
      assert polls[..i + 1][..i] == polls[..i];
      var p := polls[i];
      i := i + 1;
      if p.ListError? {
        continue;
      }
      var running;
      records, running := PollOnce(records, p);
      if running >= targetCount {
        assert Done(polls[i - 1], targetCount);
        ok := true;
        break;
      }
    }
    WatchedIs(polls, targetCount, i);
    DoneMeans(polls, targetCount);
    recs := records;
    machines, allRunning := Report(records);
    if GoodPolls(polls) {
      FirstPollsAreGood(polls, i);
      ReportedAreTimed(polls[..i], machines, allRunning);
    }
  }

  lemma DoneMeans(polls: seq<Poll>, targetCount: int)
    ensures forall j :: 0 <= j < |polls| ==>
      (Done(polls[j], targetCount) <==> polls[j].Listed? && |RunningAt(polls[j].machines)| >= targetCount)
  {
    hide CountRunning, RunningAt;
    forall j | 0 <= j < |polls| && polls[j].Listed?
      ensures CountRunning(polls[j].machines) == |RunningAt(polls[j].machines)|
    {
      CountsRunning(polls[j].machines);
    }
  }

  lemma FirstPollsAreGood(polls: seq<Poll>, i: nat)
    requires i <= |polls| && GoodPolls(polls)
    ensures GoodPolls(polls[..i])
  {
    assert forall j :: 0 <= j < i ==> polls[..i][j] == polls[j];
    hide GoodPoll;
  }

  lemma WatchedIs(polls: seq<Poll>, targetCount: int, used: nat)
    requires used <= |polls| && forall i :: 0 <= i < used - 1 ==> !Done(polls[i], targetCount)
    requires used == 0 ==> polls == []
    requires used > 0 && !Done(polls[used - 1], targetCount) ==> used == |polls|
    ensures Watched(polls, targetCount) == used
  {
    hide Done;
    var w := Watched(polls, targetCount);
    var atW := w > 0 && Done(polls[w - 1], targetCount);
    var atUsed := used > 0 && Done(polls[used - 1], targetCount);
  }

  // ---------------------------------------------------------------- what the timestamps mean

  datatype Stage = Provisioning | Provisioned | Running

  predicate Reached(phase: string, s: Stage) {
    match s
    case Provisioning => phase == "Provisioning" || phase == "Provisioned" || phase == "Running"
    case Provisioned => phase == "Provisioned" || phase == "Running"
    case Running => phase == "Running"
  }

  function Stamp(rec: Record, s: Stage): Time {
    match s
    case Provisioning => rec.provisioning
    case Provisioned => rec.provisioned
    case Running => rec.running
  }

  predicate UniqueNames(machines: seq<Machine>) {
    forall i, j :: 0 <= i < j < |machines| ==> machines[i].name != machines[j].name
  }

  /** What the API server and the clock guarantee: names unique in a list, and no zero time. */
  predicate GoodPoll(p: Poll) {
    p.Listed? ==> UniqueNames(p.machines) && p.now != 0
  }

  predicate GoodPolls(polls: seq<Poll>) {
    forall i :: 0 <= i < |polls| ==> GoodPoll(polls[i])
  }

  predicate Shows(p: Poll, name: string) {
    p.Listed? && exists i :: 0 <= i < |p.machines| && p.machines[i].name == name && !p.machines[i].deleting
  }

  predicate ShowsAt(p: Poll, name: string, s: Stage) {
    && p.Listed?
    && exists i :: 0 <= i < |p.machines| && p.machines[i].name == name && !p.machines[i].deleting
                  && Reached(PhaseOf(p.machines[i]), s)
  }

  /** The clock of the first poll that shows the machine at this stage; 0 when none does. */
  function FirstTime(polls: seq<Poll>, name: string, s: Stage): Time {
    if polls == [] then 0
    else
      var n := |polls| - 1;
      var before := FirstTime(polls[..n], name, s);
      if before == 0 && ShowsAt(polls[n], name, s) then polls[n].now else before
  }

  lemma ObserveStamps(rec: Record, phase: string, now: Time, s: Stage)
    ensures Stamp(Observe(rec, phase, now), s) == if Stamp(rec, s) == 0 && Reached(phase, s) then now else Stamp(rec, s)
    ensures Observe(rec, phase, now).name == rec.name && Observe(rec, phase, now).created == rec.created
  {
  }

  /** One poll changes the records of the machines it shows, each once. */
  lemma {:induction false} ObserveMachinesAt(recs: Records, machines: seq<Machine>, now: Time, name: string)
    requires UniqueNames(machines)
    ensures var after := ObserveMachines(recs, machines, now);
      && (forall i :: 0 <= i < |machines| && machines[i].name == name && !machines[i].deleting ==>
            name in after && after[name] == Observe(RecordOf(recs, machines[i]), PhaseOf(machines[i]), now))
      && ((forall i :: 0 <= i < |machines| && machines[i].name == name ==> machines[i].deleting) ==>
            (name in after <==> name in recs) && (name in recs ==> after[name] == recs[name]))
  {
    hide Observe;
    if machines != [] {
      var n := |machines| - 1;
      ObserveMachinesAt(recs, machines[..n], now, name);
      assert forall i :: 0 <= i < n ==> machines[..n][i] == machines[i];
    }
  }

  /** There is a record exactly for each machine shown, not being deleted, by some poll. */
  lemma {:induction false} RecordsAreShown(polls: seq<Poll>, name: string)
    requires GoodPolls(polls)
    ensures name in ObservePolls(polls) <==> exists i :: 0 <= i < |polls| && Shows(polls[i], name)
    ensures name in ObservePolls(polls) ==> ObservePolls(polls)[name].name == name
  {
    hide Observe;
    if polls != [] {
      var n := |polls| - 1;
      RecordsAreShown(polls[..n], name);
      assert forall i :: 0 <= i < n ==> polls[..n][i] == polls[i];
      assert GoodPoll(polls[n]);
      var recs, p := ObservePolls(polls[..n]), polls[n];
      if p.Listed? {
        ObserveMachinesAt(recs, p.machines, p.now, name);
        hide ObserveMachines;
        if i :| 0 <= i < |p.machines| && p.machines[i].name == name && !p.machines[i].deleting {
          ObserveStamps(RecordOf(recs, p.machines[i]), PhaseOf(p.machines[i]), p.now, Running);
        }
      }
    }
  }

  /** Each timestamp of a record is the first time of its stage. */
  lemma {:induction false} RecordsAreFirstTimes(polls: seq<Poll>, name: string, s: Stage)
    requires GoodPolls(polls)
    ensures FirstTime(polls, name, s) == if name in ObservePolls(polls) then Stamp(ObservePolls(polls)[name], s) else 0
  {
    if polls != [] {
      var n := |polls| - 1;
      RecordsAreFirstTimes(polls[..n], name, s);
      assert GoodPoll(polls[n]);
      hide GoodPolls;
      var recs, p := ObservePolls(polls[..n]), polls[n];
      if p.Listed? {
        ObserveMachinesAt(recs, p.machines, p.now, name);
        hide ObserveMachines, Reached;
        if i :| 0 <= i < |p.machines| && p.machines[i].name == name && !p.machines[i].deleting {
          ObserveStamps(RecordOf(recs, p.machines[i]), PhaseOf(p.machines[i]), p.now, s);
          hide Observe;
          assert ShowsAt(p, name, s) <==> Reached(PhaseOf(p.machines[i]), s);
        } else {
          assert !ShowsAt(p, name, s);
        }
      }
    }
  }

  /** The first poll that shows the machine gives this as its creation time. */
  ghost predicate CreatedAt(polls: seq<Poll>, name: string, created: Time) {
    exists i, j :: 0 <= i < |polls| && ShownAs(polls[i], j, name, created) && !ShownBefore(polls, i, name)
  }

  /** The j-th machine of the poll. */
  predicate ShownAs(p: Poll, j: int, name: string, created: Time) {
    && p.Listed? && 0 <= j < |p.machines|
    && p.machines[j].name == name && !p.machines[j].deleting && p.machines[j].created == created
  }

  predicate ShownBefore(polls: seq<Poll>, i: nat, name: string)
    requires i <= |polls|
  {
    exists k :: 0 <= k < i && Shows(polls[k], name)
  }

  lemma StillCreatedAt(polls: seq<Poll>, p: Poll, name: string, created: Time)
    requires CreatedAt(polls, name, created)
    ensures CreatedAt(polls + [p], name, created)
  {
    var i, j :| 0 <= i < |polls| && ShownAs(polls[i], j, name, created) && !ShownBefore(polls, i, name);
    assert (polls + [p])[i] == polls[i];
    assert forall k :: 0 <= k < i ==> (polls + [p])[k] == polls[k];
    assert !ShownBefore(polls + [p], i, name);
  }

  /** Each record has the creation time that the first sight of its machine gave. */
  lemma {:induction false} RecordsKeepCreation(polls: seq<Poll>, name: string)
    requires GoodPolls(polls) && name in ObservePolls(polls)
    ensures CreatedAt(polls, name, ObservePolls(polls)[name].created)
  {
    var n := |polls| - 1;
    var recs, p := ObservePolls(polls[..n]), polls[n];
    assert polls == polls[..n] + [p] && GoodPoll(p);
    hide Observe;
    if name in recs {
      RecordsKeepCreation(polls[..n], name);
      if p.Listed? {
        ObserveMachinesAt(recs, p.machines, p.now, name);
        hide ObserveMachines;
        if i :| 0 <= i < |p.machines| && p.machines[i].name == name && !p.machines[i].deleting {
          ObserveStamps(RecordOf(recs, p.machines[i]), PhaseOf(p.machines[i]), p.now, Running);
        }
      }
      StillCreatedAt(polls[..n], p, name, ObservePolls(polls)[name].created);
    } else {
      RecordsAreShown(polls[..n], name);
      assert !ShownBefore(polls, n, name) by {
        assert forall k :: 0 <= k < n ==> polls[..n][k] == polls[k];
      }
      ObserveMachinesAt(recs, p.machines, p.now, name);
      hide ObserveMachines;
      var i :| 0 <= i < |p.machines| && p.machines[i].name == name && !p.machines[i].deleting;
      ObserveStamps(RecordOf(recs, p.machines[i]), PhaseOf(p.machines[i]), p.now, Running);
      assert ShownAs(p, i, name, p.machines[i].created);
    }
  }

  /** All that a record says, in terms of the polls. */
  ghost predicate Timed(polls: seq<Poll>, rec: Record) {
    && CreatedAt(polls, rec.name, rec.created)
    && rec.provisioning == FirstTime(polls, rec.name, Provisioning)
    && rec.provisioned == FirstTime(polls, rec.name, Provisioned)
    && rec.running == FirstTime(polls, rec.name, Running)
  }

  lemma RecordsAreTimed(polls: seq<Poll>, name: string)
    requires GoodPolls(polls) && name in ObservePolls(polls)
    ensures ObservePolls(polls)[name].name == name && Timed(polls, ObservePolls(polls)[name])
  {
    RecordsAreShown(polls, name);
    RecordsKeepCreation(polls, name);
    RecordsAreFirstTimes(polls, name, Provisioning);
    RecordsAreFirstTimes(polls, name, Provisioned);
    RecordsAreFirstTimes(polls, name, Running);
  }

  lemma ReportedAreTimed(polls: seq<Poll>, machines: seq<Record>, allRunning: Time)
    requires GoodPolls(polls) && Reports(ObservePolls(polls), machines, allRunning)
    ensures forall i :: 0 <= i < |machines| ==> Timed(polls, machines[i])
  {
    hide ObservePolls, Timed;
    forall i | 0 <= i < |machines|
      ensures Timed(polls, machines[i])
    {
      var name :| name in ObservePolls(polls) && ObservePolls(polls)[name] == machines[i];
      RecordsAreTimed(polls, name);
    }
  }

  // ---------------------------------------------------------------- consequences

  lemma {:induction false} FirstTimeIsAClock(polls: seq<Poll>, name: string, s: Stage)
    ensures FirstTime(polls, name, s) != 0 ==>
      exists i :: 0 <= i < |polls| && polls[i].Listed? && polls[i].now == FirstTime(polls, name, s)
  {
    if polls != [] {
      var n := |polls| - 1;
      FirstTimeIsAClock(polls[..n], name, s);
      if FirstTime(polls[..n], name, s) != 0 {
        var i :| 0 <= i < n && polls[..n][i].Listed? && polls[..n][i].now == FirstTime(polls[..n], name, s);
        assert polls[i] == polls[..n][i];
      }
    }
  }

  predicate ClocksNeverGoBack(polls: seq<Poll>) {
    forall i, j :: 0 <= i < j < |polls| && polls[i].Listed? && polls[j].Listed? ==> polls[i].now <= polls[j].now
  }

  predicate Before(a: Stage, b: Stage) {
    a == Provisioning || b == Running || a == b
  }

  /** Whatever phases are skipped or revisited: a later stage implies the earlier one, no later. */
  lemma {:induction false} StagesInOrder(polls: seq<Poll>, name: string, a: Stage, b: Stage)
    requires GoodPolls(polls) && ClocksNeverGoBack(polls) && Before(a, b)
    ensures FirstTime(polls, name, b) != 0 ==> 0 != FirstTime(polls, name, a) <= FirstTime(polls, name, b)
  {
    if polls != [] {
      var n := |polls| - 1;
      assert forall i :: 0 <= i < n ==> polls[..n][i] == polls[i];
      StagesInOrder(polls[..n], name, a, b);
      FirstTimeIsAClock(polls[..n], name, a);
      if ShowsAt(polls[n], name, b) {
        assert ShowsAt(polls[n], name, a);
      }
    }
  }

  /** The same for the records that a watch reports. */
  lemma RecordStagesInOrder(polls: seq<Poll>, name: string)
    requires GoodPolls(polls) && ClocksNeverGoBack(polls) && name in ObservePolls(polls)
    ensures var rec := ObservePolls(polls)[name];
      && (rec.running != 0 ==> 0 != rec.provisioned <= rec.running)
      && (rec.provisioned != 0 ==> 0 != rec.provisioning <= rec.provisioned)
  {
    RecordsAreFirstTimes(polls, name, Provisioning);
    RecordsAreFirstTimes(polls, name, Provisioned);
    RecordsAreFirstTimes(polls, name, Running);
    StagesInOrder(polls, name, Provisioned, Running);
    StagesInOrder(polls, name, Provisioning, Provisioned);
  }

  /** later may only fill in what earlier left at zero. */
  predicate Extends(earlier: Record, later: Record) {
    && later.name == earlier.name && later.created == earlier.created
    && (earlier.provisioning != 0 ==> later.provisioning == earlier.provisioning)
    && (earlier.provisioned != 0 ==> later.provisioned == earlier.provisioned)
    && (earlier.running != 0 ==> later.running == earlier.running)
  }

  predicate AllExtend(earlier: Records, later: Records) {
    forall name :: name in earlier ==> name in later && Extends(earlier[name], later[name])
  }

  lemma {:induction false} MachinesExtend(recs: Records, machines: seq<Machine>, now: Time)
    ensures AllExtend(recs, ObserveMachines(recs, machines, now))
  {
    if machines != [] { MachinesExtend(recs, machines[..|machines| - 1], now); }
  }

  /** Write-once, over any polls at all: no clock or naming assumption is needed. */
  lemma {:induction false} TimestampsAreWriteOnce(polls: seq<Poll>, more: seq<Poll>)
    ensures AllExtend(ObservePolls(polls), ObservePolls(polls + more))
  {
    if more == [] {
      assert polls + more == polls;
    } else {
      var n := |more| - 1;
      TimestampsAreWriteOnce(polls, more[..n]);
      assert (polls + more)[..|polls| + n] == polls + more[..n];
      var before := ObservePolls(polls + more[..n]);
      if more[n].Listed? { MachinesExtend(before, more[n].machines, more[n].now); }
    }
  }

  // ---------------------------------------------------------------- success

  function RunningRecords(recs: Records): set<string> {
    set n | n in recs && recs[n].running != 0
  }

  function RunningNames(machines: seq<Machine>): set<string> {
    set i | 0 <= i < |machines| && IsRunning(machines[i]) :: machines[i].name
  }

  lemma {:induction false} RunningNamesCount(machines: seq<Machine>)
    requires UniqueNames(machines)
    ensures |RunningNames(machines)| == CountRunning(machines)
  {
    if machines != [] {
      var n := |machines| - 1;
      RunningNamesCount(machines[..n]);
      RunningNamesSnoc(machines[..n], machines[n]);
      assert machines == machines[..n] + [machines[n]];
      assert machines[n].name !in RunningNames(machines[..n]);
      hide RunningNames;
    }
  }

  lemma RunningNamesSnoc(machines: seq<Machine>, m: Machine)
    ensures RunningNames(machines + [m]) == RunningNames(machines) + if IsRunning(m) then {m.name} else {}
  {
    hide IsRunning;
    assert (machines + [m])[|machines|] == m;
    forall i | 0 <= i < |machines| && IsRunning(machines[i])
      ensures machines[i].name in RunningNames(machines + [m])
    {
      assert (machines + [m])[i] == machines[i];
    }
  }

  lemma Subset<T>(a: set<T>, b: set<T>)
    requires a <= b
    ensures |a| <= |b|
  {
    if a != {} {
      var x :| x in a;
      Subset(a - {x}, b - {x});
    }
  }

  /** A successful watch has at least targetCount distinct machines with a Running time. */
  lemma SuccessHasTarget(polls: seq<Poll>, targetCount: int)
    requires GoodPolls(polls) && exists i :: 0 <= i < |polls| && Done(polls[i], targetCount)
    ensures |RunningRecords(ObservePolls(polls[..Watched(polls, targetCount)]))| >= targetCount
  {
    var used := Watched(polls, targetCount);
    assert used > 0 && Done(polls[used - 1], targetCount);
    var p, before := polls[used - 1], ObservePolls(polls[..used - 1]);
    assert polls[..used][..used - 1] == polls[..used - 1];
    var recs := ObservePolls(polls[..used]);
    assert GoodPoll(p);
    RunningNamesCount(p.machines);
    forall n | n in RunningNames(p.machines)
      ensures n in RunningRecords(recs)
    {
      var i :| 0 <= i < |p.machines| && IsRunning(p.machines[i]) && p.machines[i].name == n;
      ObserveMachinesAt(before, p.machines, p.now, n);
      ObserveStamps(RecordOf(before, p.machines[i]), "Running", p.now, Running);
    }
    Subset(RunningNames(p.machines), RunningRecords(recs));
  }
}
