/**
 How long the success of DownloadOVAToDir stays true. A caller that got the path back
 relies on the file matching the digest it asked for; later callers of the same path may
 ask for something else. The exact condition on the digests asked for, and runs that
 reach the bounds of OvaCache.
 */
module OvaLasting {
  import opened OvaCache
  import opened Seqs

  /** The callers of p only ask for digests in asked. */
  predicate AsksFrom(acts: seq<Action>, p: Path, asked: set<Digest>) {
    forall a :: a in acts && a.Start? && a.path == p ==> a.expected in asked
  }

  ghost predicate AskedFrom(s: State, p: Path, asked: set<Digest>) {
    forall c :: c in s.calls && s.calls[c].path == p ==> s.calls[c].expected in asked
  }

  /** A caller without a digest misses a file that is there, because os.Stat fails. */
  predicate StatFault(s: State, a: Action, p: Path) {
    a.CheckReadFault? && OnPath(s, a, p) && s.calls[a.c].expected == ""
  }

  function StatFaults(h: Hash, s: State, acts: seq<Action>, p: Path): nat
    requires Legal(h, s, acts)
  {
    if acts == [] then 0 else
      StatFaults(h, s, Init(acts), p) + if StatFault(Run(h, s, Init(acts)), Last(acts), p) then 1 else 0
  }

  /** Every call on p that has reported success still has the file it asked for. */
  ghost predicate StillTrue(h: Hash, s: State, p: Path) {
    forall c :: c in s.calls && s.calls[c].path == p && s.calls[c].pc == Done(true) ==>
      p in s.cached && Accepts(h, s.calls[c].expected, s.cached[p])
  }

  /** In every run with these callers a reported success stays true. */
  ghost predicate SuccessLasts(h: Hash, p: Path, asked: set<Digest>, statFails: bool) {
    forall s, acts ::
      Fresh(s) && Legal(h, s, acts) && AsksFrom(acts, p, asked) && (statFails || StatFaults(h, s, acts, p) == 0) ==>
        StillTrue(h, Run(h, s, acts), p)
  }

  /** Some file satisfies a caller of d, and another one satisfies a caller of e but not of d. */
  ghost predicate Conflict(h: Hash, d: Digest, e: Digest) {
    exists b0, b1 :: Accepts(h, d, b0) && Accepts(h, e, b1) && !Accepts(h, d, b1)
  }

  /** No caller can push another's file out; one without a digest replaces a present file only when os.Stat fails. */
  ghost predicate Harmless(h: Hash, asked: set<Digest>, statFails: bool) {
    forall d, e :: d in asked && e in asked && (statFails || e != "") ==> !Conflict(h, d, e)
  }

  // ---------------------------------------------------------------- harmless callers

  /** A caller without a digest downloads only while there is no file. */
  ghost predicate NoDigestNoFile(s: State, p: Path) {
    forall c :: c in s.calls && s.calls[c].path == p && s.calls[c].expected == "" && Downloading(s.calls[c].pc) ==>
      p !in s.cached
  }

  ghost predicate LastingInv(h: Hash, s: State, p: Path, asked: set<Digest>, statFails: bool) {
    Inv(h, s) && AskedFrom(s, p, asked) && StillTrue(h, s, p) && (!statFails ==> NoDigestNoFile(s, p))
  }

  lemma PcDownloading(h: Hash, s: State, a: Action)
    requires Enabled(s, a)
    ensures Downloading(NextPc(h, s, a)) ==>
      a.c in s.calls && (Downloading(s.calls[a.c].pc) || (a.Check? && s.calls[a.c].path !in s.cached)
        || (a.Check? && s.calls[a.c].expected != "") || a.CheckReadFault?)
    ensures a.Rename? ==> a.c in s.calls && Downloading(s.calls[a.c].pc) && !Downloading(NextPc(h, s, a))
  {
  }

  lemma PcDone(h: Hash, s: State, a: Action)
    requires Enabled(s, a) && NextPc(h, s, a) == Done(true)
    ensures a.Unlock? && s.calls[a.c].pc == Unlocking(true)
  {
  }

  lemma StepAskedFrom(h: Hash, s: State, a: Action, p: Path, asked: set<Digest>)
    requires Enabled(s, a) && AskedFrom(s, p, asked) && (a.Start? && a.path == p ==> a.expected in asked)
    ensures AskedFrom(Apply(h, s, a), p, asked)
  {
    hide NextPc, NextLocks, NextCached, NextTemps;
  }

  lemma StepNoDigestNoFile(h: Hash, s: State, a: Action, p: Path)
    requires Inv(h, s) && Enabled(s, a) && NoDigestNoFile(s, p) && !StatFault(s, a, p)
    ensures NoDigestNoFile(Apply(h, s, a), p)
  {
    PcDownloading(h, s, a);
    CachedStep(h, s, a, p);
    hide NextPc, NextTemps;
    var t := Apply(h, s, a);
    forall c | c in t.calls && t.calls[c].path == p && t.calls[c].expected == "" && Downloading(t.calls[c].pc)
      ensures p !in t.cached
    {
      if c != a.c {
        assert t.calls[c] == s.calls[c] && CallOk(h, s, c);
        if a.Rename? { assert CallOk(h, s, a.c); }
      }
    }
  }

  /** The renamed file satisfies its caller, so whoever had a file that satisfied them before still has. */
  lemma RenameKeeps(h: Hash, s: State, a: Action, p: Path, asked: set<Digest>, statFails: bool, c: CallId)
    requires Harmless(h, asked, statFails) && LastingInv(h, s, p, asked, statFails)
    requires Enabled(s, a) && a.Rename? && s.calls[a.c].path == p
    requires c in s.calls && s.calls[c].path == p && s.calls[c].pc == Done(true)
    ensures var t := Apply(h, s, a);
      p in t.cached && Accepts(h, s.calls[c].expected, t.cached[p])
  {
    WholeBody(h, s, a.c);
    hide Inv, Harmless;
    var body, d, e := s.calls[a.c].pc.body, s.calls[c].expected, s.calls[a.c].expected;
    assert !Conflict(h, d, e) by { NoConflict(h, asked, statFails, d, e); }
    assert Accepts(h, d, s.cached[p]) && Accepts(h, e, body);
  }

  lemma NoConflict(h: Hash, asked: set<Digest>, statFails: bool, d: Digest, e: Digest)
    requires Harmless(h, asked, statFails) && d in asked && e in asked && (statFails || e != "")
    ensures !Conflict(h, d, e)
  {
  }

  lemma StepStillTrue(h: Hash, s: State, a: Action, p: Path, asked: set<Digest>, statFails: bool)
    requires Harmless(h, asked, statFails) && LastingInv(h, s, p, asked, statFails) && Enabled(s, a)
    ensures StillTrue(h, Apply(h, s, a), p)
  {
    hide Harmless, NextPc;
    CachedStep(h, s, a, p);
    var t := Apply(h, s, a);
    forall c | c in t.calls && t.calls[c].path == p && t.calls[c].pc == Done(true)
      ensures p in t.cached && Accepts(h, t.calls[c].expected, t.cached[p])
    {
      if c == a.c {
        PcDone(h, s, a);
        assert CallOk(h, s, c);
      } else if a.Rename? && s.calls[a.c].path == p {
        RenameKeeps(h, s, a, p, asked, statFails, c);
      }
    }
  }

  lemma {:induction false} HarmlessRun(h: Hash, s: State, acts: seq<Action>, p: Path, asked: set<Digest>,
      statFails: bool)
    requires Harmless(h, asked, statFails) && Fresh(s) && Legal(h, s, acts) && AsksFrom(acts, p, asked)
    requires statFails || StatFaults(h, s, acts, p) == 0
    ensures LastingInv(h, Run(h, s, acts), p, asked, statFails)
    decreases |acts|
  {
    if acts == [] {
      FreshInv(h, s);
      hide Inv;
    } else {
      var mid, a := Run(h, s, Init(acts)), Last(acts);
      HarmlessRun(h, s, Init(acts), p, asked, statFails);
      hide Harmless, Inv, StillTrue, NoDigestNoFile, AskedFrom, Enabled, Apply;
      StepKeepsInv(h, mid, a);
      StepAskedFrom(h, mid, a, p, asked);
      StepStillTrue(h, mid, a, p, asked, statFails);
      if !statFails { StepNoDigestNoFile(h, mid, a, p); }
    }
  }

  // ---------------------------------------------------------------- whole downloads, step by step

  /** How the actions of a run count, for path p and digest e. */
  datatype Tally = Tally(renames: nat, goodFaults: nat, statFaults: nat)

  function TallyOf(h: Hash, s: State, acts: seq<Action>, p: Path, e: Digest): Tally
    requires Legal(h, s, acts)
  {
    Tally(Renames(h, s, acts, p), GoodFaults(h, s, acts, p, e), StatFaults(h, s, acts, p))
  }

  /** One more step. */
  lemma Take(h: Hash, s: State, acts: seq<Action>, a: Action, p: Path, e: Digest) returns (acts': seq<Action>)
    requires Legal(h, s, acts) && Enabled(Run(h, s, acts), a)
    ensures acts' == acts + [a] && Legal(h, s, acts') && Run(h, s, acts') == Apply(h, Run(h, s, acts), a)
    ensures var t, n := Run(h, s, acts), TallyOf(h, s, acts, p, e);
      TallyOf(h, s, acts', p, e) == Tally(
        n.renames + Bit(a.Rename? && OnPath(t, a, p)),
        n.goodFaults + Bit(GoodFault(h, t, a, p, e)),
        n.statFaults + Bit(StatFault(t, a, p)))
  {
    acts' := acts + [a];
    Extend(h, s, acts, a);
    assert Init(acts') == acts && Last(acts') == a;
    hide Apply, Enabled, GoodFault, StatFault, OnPath;
  }

  /** State t with call c at a given point of a download for path p. */
  function With(t: State, c: CallId, p: Path, e: Digest, pc: Pc): State {
    t.(calls := t.calls[c := Call(p, e, pc)])
  }

  /** One ordinary step of call c, when its effect is known. */
  lemma TakeTo(h: Hash, s: State, acts: seq<Action>, x: State, a: Action, y: State, p: Path, e: Digest)
    returns (acts': seq<Action>)
    requires Legal(h, s, acts) && Run(h, s, acts) == x && Enabled(x, a) && Apply(h, x, a) == y
    requires !a.Rename? && !a.CheckReadFault?
    ensures acts' == acts + [a] && Legal(h, s, acts') && Run(h, s, acts') == y
    ensures TallyOf(h, s, acts', p, e) == TallyOf(h, s, acts, p, e)
  {
    acts' := Take(h, s, acts, a, p, e);
    hide Apply, Enabled, Legal, Run, TallyOf;
  }

  lemma EnterSteps(h: Hash, t: State, c: CallId, p: Path, e: Digest)
    requires c !in t.calls && p !in t.locks
    ensures var s1, held := With(t, c, p, e, Waiting), t.(locks := t.locks[p := c]);
      && Enabled(t, Start(c, p, e)) && Apply(h, t, Start(c, p, e)) == s1
      && Enabled(s1, Acquire(c)) && Apply(h, s1, Acquire(c)) == With(held, c, p, e, Checking)
  {
  }

  lemma MissStep(h: Hash, t: State, c: CallId, p: Path, e: Digest, fault: bool)
    requires if fault then p in t.cached else !(p in t.cached && Accepts(h, e, t.cached[p]))
    ensures var x, a := With(t, c, p, e, Checking), if fault then CheckReadFault(c) else Check(c);
      Enabled(x, a) && Apply(h, x, a) == With(t, c, p, e, Missed)
  {
  }

  /** A new call takes the lock and misses: there is no accepted file, or it cannot be read. */
  lemma EnterAndMiss(h: Hash, s: State, acts: seq<Action>, c: CallId, p: Path, e: Digest, fault: bool)
    returns (acts': seq<Action>)
    requires Legal(h, s, acts) && c !in Run(h, s, acts).calls && p !in Run(h, s, acts).locks
    requires var t := Run(h, s, acts);
      if fault then p in t.cached else !(p in t.cached && Accepts(h, e, t.cached[p]))
    ensures Legal(h, s, acts') && OneMoreCall(acts, acts', p, e)
    ensures var t := Run(h, s, acts);
      Run(h, s, acts') == With(t.(locks := t.locks[p := c]), c, p, e, Missed)
    ensures var t, n := Run(h, s, acts), TallyOf(h, s, acts, p, e);
      TallyOf(h, s, acts', p, e) ==
        Tally(n.renames, n.goodFaults + Bit(fault && Matches(h, t, p, e)), n.statFaults + Bit(fault && e == ""))
  {
    hide Legal, Run, TallyOf, Apply, Enabled;
    var t := Run(h, s, acts);
    var held := t.(locks := t.locks[p := c]);
    EnterSteps(h, t, c, p, e);
    MissStep(h, held, c, p, e, fault);
    acts' := TakeTo(h, s, acts, t, Start(c, p, e), With(t, c, p, e, Waiting), p, e);
    acts' := TakeTo(h, s, acts', With(t, c, p, e, Waiting), Acquire(c), With(held, c, p, e, Checking), p, e);
    acts' := Take(h, s, acts', if fault then CheckReadFault(c) else Check(c), p, e);
  }

  /** acts' is acts and the steps of one more call for p that asks for e. */
  predicate OneMoreCall(acts: seq<Action>, acts': seq<Action>, p: Path, e: Digest) {
    acts <= acts' && forall i :: |acts| <= i < |acts'| && acts'[i].Start? ==>
      acts'[i].path == p && acts'[i].expected == e
  }

  function HashedFor(e: Digest, body: Bytes): Bytes {
    if e == "" then [] else body
  }

  lemma OpenSteps(h: Hash, t: State, c: CallId, p: Path, e: Digest, body: Bytes, tmp: TempName)
    requires tmp !in t.used
    ensures var s1, t1 := With(t, c, p, e, Responded(body)), t.(temps := t.temps[tmp := []], used := t.used + {tmp});
      && Enabled(With(t, c, p, e, Missed), Respond(c, 200, body))
      && Apply(h, With(t, c, p, e, Missed), Respond(c, 200, body)) == s1
      && Enabled(s1, CreateTemp(c, tmp))
      && Apply(h, s1, CreateTemp(c, tmp)) == With(t1, c, p, e, Writing(Streaming, tmp, body, 0, []))
  {
  }

  lemma ChunkStep(h: Hash, t: State, c: CallId, p: Path, e: Digest, body: Bytes, tmp: TempName)
    requires tmp in t.temps && t.temps[tmp] == [] && body != []
    ensures var x, a := With(t, c, p, e, Writing(Streaming, tmp, body, 0, [])), Chunk(c, |body|);
      && Enabled(x, a)
      && Apply(h, x, a) ==
        With(t.(temps := t.temps[tmp := body]), c, p, e, Writing(Streaming, tmp, body, |body|, HashedFor(e, body)))
  {
    assert body[0 .. |body|] == body && [] + body == body;
  }

  lemma CloseSteps(h: Hash, t: State, c: CallId, p: Path, e: Digest, body: Bytes, tmp: TempName, hashed: Bytes)
    ensures var s1 := With(t, c, p, e, Writing(Streaming, tmp, body, |body|, hashed));
      var s2 := With(t, c, p, e, Writing(Copied, tmp, body, |body|, hashed));
      && Enabled(s1, Eof(c)) && Apply(h, s1, Eof(c)) == s2
      && Enabled(s2, Close(c)) && Apply(h, s2, Close(c)) == With(t, c, p, e, Writing(Closed, tmp, body, |body|, hashed))
  {
  }

  lemma VerifyStep(h: Hash, t: State, c: CallId, p: Path, e: Digest, body: Bytes, tmp: TempName)
    requires Accepts(h, e, body)
    ensures var x := With(t, c, p, e, Writing(Closed, tmp, body, |body|, HashedFor(e, body)));
      && Enabled(x, Verify(c))
      && Apply(h, x, Verify(c)) == With(t, c, p, e, Writing(Verified, tmp, body, |body|, HashedFor(e, body)))
  {
  }

  lemma RenameStep(h: Hash, t: State, c: CallId, p: Path, e: Digest, body: Bytes, tmp: TempName, hashed: Bytes)
    requires tmp in t.temps && t.temps[tmp] == body
    ensures var x := With(t, c, p, e, Writing(Verified, tmp, body, |body|, hashed));
      && Enabled(x, Rename(c))
      && Apply(h, x, Rename(c)) ==
        With(t.(cached := t.cached[p := body], temps := t.temps - {tmp}), c, p, e, Cleaning(tmp, true))
  {
  }

  lemma LeaveSteps(h: Hash, t: State, c: CallId, p: Path, e: Digest, tmp: TempName)
    requires tmp !in t.temps
    ensures var s1, s2 := With(t, c, p, e, Cleaning(tmp, true)), With(t, c, p, e, Unlocking(true));
      && Enabled(s1, Remove(c)) && Apply(h, s1, Remove(c)) == s2
      && Enabled(s2, Unlock(c))
      && Apply(h, s2, Unlock(c)) == With(t.(locks := t.locks - {p}), c, p, e, Done(true))
  {
    assert t.temps - {tmp} == t.temps;
  }

  /** A missed call streams the body into its temp file ... */
  lemma StreamBody(h: Hash, s: State, acts: seq<Action>, t: State, c: CallId, p: Path, e: Digest, body: Bytes,
      tmp: TempName)
    returns (acts': seq<Action>)
    requires Legal(h, s, acts) && Run(h, s, acts) == With(t, c, p, e, Missed) && tmp !in t.used
    ensures Legal(h, s, acts') && OneMoreCall(acts, acts', p, e)
    ensures TallyOf(h, s, acts', p, e) == TallyOf(h, s, acts, p, e)
    ensures Run(h, s, acts') ==
      With(t.(temps := t.temps[tmp := body], used := t.used + {tmp}), c, p, e,
        Writing(Streaming, tmp, body, |body|, HashedFor(e, body)))
  {
    hide Legal, Run, TallyOf, Apply, Enabled, With;
    var t1 := t.(temps := t.temps[tmp := []], used := t.used + {tmp});
    var created := With(t1, c, p, e, Writing(Streaming, tmp, body, 0, []));
    OpenSteps(h, t, c, p, e, body, tmp);
    acts' := TakeTo(h, s, acts, With(t, c, p, e, Missed), Respond(c, 200, body), With(t, c, p, e, Responded(body)),
      p, e);
    acts' := TakeTo(h, s, acts', With(t, c, p, e, Responded(body)), CreateTemp(c, tmp), created, p, e);
    assert t1.temps[tmp := body] == t.temps[tmp := body];
    if body != [] {
      ChunkStep(h, t1, c, p, e, body, tmp);
      acts' := TakeTo(h, s, acts', created, Chunk(c, |body|),
                      With(t1.(temps := t1.temps[tmp := body]), c, p, e,
                           Writing(Streaming, tmp, body, |body|, HashedFor(e, body))), p, e);
    }
  }

  /** ... and verifies it. */
  lemma VerifyBody(h: Hash, s: State, acts: seq<Action>, t: State, c: CallId, p: Path, e: Digest, body: Bytes,
      tmp: TempName)
    returns (acts': seq<Action>)
    requires Legal(h, s, acts) && Accepts(h, e, body)
    requires Run(h, s, acts) == With(t, c, p, e, Writing(Streaming, tmp, body, |body|, HashedFor(e, body)))
    ensures Legal(h, s, acts') && OneMoreCall(acts, acts', p, e)
    ensures TallyOf(h, s, acts', p, e) == TallyOf(h, s, acts, p, e)
    ensures Run(h, s, acts') == With(t, c, p, e, Writing(Verified, tmp, body, |body|, HashedFor(e, body)))
  {
    hide Legal, Run, TallyOf, Apply, Enabled, Accepts, With;
    var hashed := HashedFor(e, body);
    var s1 := With(t, c, p, e, Writing(Streaming, tmp, body, |body|, hashed));
    var s2 := With(t, c, p, e, Writing(Copied, tmp, body, |body|, hashed));
    var s3 := With(t, c, p, e, Writing(Closed, tmp, body, |body|, hashed));
    CloseSteps(h, t, c, p, e, body, tmp, hashed);
    acts' := TakeTo(h, s, acts, s1, Eof(c), s2, p, e);
    acts' := TakeTo(h, s, acts', s2, Close(c), s3, p, e);
    VerifyStep(h, t, c, p, e, body, tmp);
    acts' := TakeTo(h, s, acts', s3, Verify(c), With(t, c, p, e, Writing(Verified, tmp, body, |body|, hashed)), p, e);
  }

  /** A verified call renames, cleans up and unlocks. */
  lemma StoreBody(h: Hash, s: State, acts: seq<Action>, t: State, c: CallId, p: Path, e: Digest, body: Bytes,
      tmp: TempName)
    returns (acts': seq<Action>)
    requires Legal(h, s, acts) && tmp in t.temps && t.temps[tmp] == body
    requires Run(h, s, acts) == With(t, c, p, e, Writing(Verified, tmp, body, |body|, HashedFor(e, body)))
    ensures Legal(h, s, acts') && OneMoreCall(acts, acts', p, e)
    ensures var n := TallyOf(h, s, acts, p, e);
      TallyOf(h, s, acts', p, e) == n.(renames := n.renames + 1)
    ensures Run(h, s, acts') ==
      With(State(t.calls, t.locks - {p}, t.cached[p := body], t.temps - {tmp}, t.used), c, p, e, Done(true))
  {
    hide Legal, Run, TallyOf, Apply, Enabled;
    var stored := t.(cached := t.cached[p := body], temps := t.temps - {tmp});
    var s1, s2 := With(stored, c, p, e, Cleaning(tmp, true)), With(stored, c, p, e, Unlocking(true));
    RenameStep(h, t, c, p, e, body, tmp, HashedFor(e, body));
    acts' := Take(h, s, acts, Rename(c), p, e);
    LeaveSteps(h, stored, c, p, e, tmp);
    acts' := TakeTo(h, s, acts', s1, Remove(c), s2, p, e);
    acts' := TakeTo(h, s, acts', s2, Unlock(c), With(stored.(locks := stored.locks - {p}), c, p, e, Done(true)), p, e);
  }

  /** A whole call that misses and downloads an accepted body, alone on its path. */
  lemma WholeDownload(h: Hash, s: State, acts: seq<Action>, c: CallId, p: Path, e: Digest, body: Bytes, tmp: TempName,
      fault: bool)
    returns (acts': seq<Action>)
    requires Legal(h, s, acts) && Run(h, s, acts).temps.Keys <= Run(h, s, acts).used
    requires var t := Run(h, s, acts);
      && c !in t.calls && p !in t.locks && tmp !in t.used && Accepts(h, e, body)
      && if fault then p in t.cached else !(p in t.cached && Accepts(h, e, t.cached[p]))
    ensures Legal(h, s, acts') && OneMoreCall(acts, acts', p, e)
    ensures var t := Run(h, s, acts);
      Run(h, s, acts') ==
        State(t.calls[c := Call(p, e, Done(true))], t.locks, t.cached[p := body], t.temps, t.used + {tmp})
    ensures var t, n := Run(h, s, acts), TallyOf(h, s, acts, p, e);
      TallyOf(h, s, acts', p, e) ==
        Tally(n.renames + 1, n.goodFaults + Bit(fault && Matches(h, t, p, e)), n.statFaults + Bit(fault && e == ""))
  {
    hide Legal, Run, TallyOf, Apply, Enabled, Accepts, Matches;
    var t := Run(h, s, acts);
    var held := t.(locks := t.locks[p := c]);
    var full := held.(temps := t.temps[tmp := body], used := t.used + {tmp});
    acts' := EnterAndMiss(h, s, acts, c, p, e, fault);
    acts' := StreamBody(h, s, acts', held, c, p, e, body, tmp);
    acts' := VerifyBody(h, s, acts', full, c, p, e, body, tmp);
    acts' := StoreBody(h, s, acts', full, c, p, e, body, tmp);
    assert full.temps - {tmp} == t.temps && held.locks - {p} == t.locks;
  }

  // ---------------------------------------------------------------- the exact condition, and the bounds reached

  const NOTHING := State(map[], map[], map[], map[], {})

  lemma NothingRun(h: Hash, p: Path, e: Digest)
    ensures Fresh(NOTHING) && Legal(h, NOTHING, []) && Run(h, NOTHING, []) == NOTHING
    ensures TallyOf(h, NOTHING, [], p, e) == Tally(0, 0, 0)
  {
  }

  /** Two conflicting callers: both succeed, and the first success does not last. */
  lemma ConflictBreaks(h: Hash, p: Path, asked: set<Digest>, statFails: bool, d: Digest, e: Digest)
    requires d in asked && e in asked && (statFails || e != "") && Conflict(h, d, e)
    ensures !SuccessLasts(h, p, asked, statFails)
  {
    hide Legal, Run, TallyOf;
    var b0, b1 :| Accepts(h, d, b0) && Accepts(h, e, b1) && !Accepts(h, d, b1);
    NothingRun(h, p, d);
    var first := WholeDownload(h, NOTHING, [], 0, p, d, b0, 0, false);
    NothingRun(h, p, e);
    StatFaultsOnly(h, NOTHING, first, p, d, e);
    var both := WholeDownload(h, NOTHING, first, 1, p, e, b1, 1, e == "");
    assert AsksFrom(both, p, asked);
    StatFaultsOnly(h, NOTHING, both, p, e, e);
    assert StatFaults(h, NOTHING, both, p) == Bit(e == "");
    var t := Run(h, NOTHING, both);
    assert t.calls[0] == Call(p, d, Done(true)) && !StillTrue(h, t, p);
  }

  /** Stat faults are counted for the path alone. */
  lemma StatFaultsOnly(h: Hash, s: State, acts: seq<Action>, p: Path, d: Digest, e: Digest)
    requires Legal(h, s, acts)
    ensures TallyOf(h, s, acts, p, d).statFaults == TallyOf(h, s, acts, p, e).statFaults == StatFaults(h, s, acts, p)
  {
  }

  /**
   A reported success stays true in every run exactly when no digest asked for can be
   satisfied by a file that breaks another one: two non-empty digests that files can have
   must not both be asked for, and, where os.Stat may fail, neither may a digest together
   with no digest (unless every file has it).
   */
  lemma SuccessLastsIff(h: Hash, p: Path, asked: set<Digest>, statFails: bool)
    ensures SuccessLasts(h, p, asked, statFails) <==> Harmless(h, asked, statFails)
  {
    if Harmless(h, asked, statFails) {
      forall s, acts |
        && Fresh(s) && Legal(h, s, acts) && AsksFrom(acts, p, asked)
        && (statFails || StatFaults(h, s, acts, p) == 0)
        ensures StillTrue(h, Run(h, s, acts), p)
      {
        HarmlessRun(h, s, acts, p, asked, statFails);
      }
    } else {
      var d, e :| d in asked && e in asked && (statFails || e != "") && Conflict(h, d, e);
      ConflictBreaks(h, p, asked, statFails, d, e);
    }
  }

  /** Conflict, spelled out: a digest some file has, and a different non-empty one some file has, or none at all. */
  lemma ConflictIff(h: Hash, d: Digest, e: Digest)
    ensures Conflict(h, d, e) <==>
      && d != "" && (exists b :: h(b) == d)
      && (if e == "" then exists b :: h(b) != d else e != d && exists b :: h(b) == e)
  {
    if Conflict(h, d, e) {
      var b0, b1 :| Accepts(h, d, b0) && Accepts(h, e, b1) && !Accepts(h, d, b1);
      assert h(b0) == d && h(b1) != d;
    }
    if
      && d != "" && (exists b :: h(b) == d)
      && if e == "" then exists b :: h(b) != d else e != d && exists b :: h(b) == e
    {
      var b0 :| h(b0) == d;
      var b1 :| if e == "" then h(b1) != d else h(b1) == e;
      assert Accepts(h, d, b0) && Accepts(h, e, b1) && !Accepts(h, d, b1);
    }
  }

  /** The rename budget is reached: n unreadable good copies, and n + 1 renames, by callers that all agree. */
  lemma {:induction false} BudgetIsReached(h: Hash, p: Path, b: Bytes, n: nat) returns (acts: seq<Action>)
    requires h(b) != ""
    ensures Legal(h, NOTHING, acts) && Agree(acts, p, h(b))
    ensures Renames(h, NOTHING, acts, p) == n + 1 && GoodFaults(h, NOTHING, acts, p, h(b)) == n
    ensures var t := Run(h, NOTHING, acts);
      && t.locks == map[] && t.temps == map[] && p in t.cached && t.cached[p] == b
      && (forall c :: c in t.calls ==> c <= n) && (forall u :: u in t.used ==> u <= n)
  {
    hide Legal, Run;
    if n == 0 {
      NothingRun(h, p, h(b));
      acts := WholeDownload(h, NOTHING, [], 0, p, h(b), b, 0, false);
    } else {
      var before := BudgetIsReached(h, p, b, n - 1);
      acts := WholeDownload(h, NOTHING, before, n, p, h(b), b, n, true);
    }
    hide Renames, GoodFaults;
    assert TallyOf(h, NOTHING, acts, p, h(b)).goodFaults == n;
  }
}
