/**
 The OVA download cache (pkg/vsphere/image.go) as a protocol.

 Any number of calls of DownloadOVAToDir, in any number of processes, share one
 cache directory.  Each call is a little program counter; a step of the system is
 one foreign effect of one call (taking the flock, hashing the cached file, one
 chunk of the response body, the rename, ...).  Every effect may fail where the
 code checks for failure, and a call may be killed between any two of its steps.
 SHA-256 is a parameter: nothing but its being a function is used.
 */
module OvaCache {
  import opened Seqs

  newtype byte = x: int | 0 <= x < 256
  type Bytes = seq<byte>
  type Path = string
  /** A hexadecimal digest; the empty string asks for no verification. */
  type Digest = string
  type Hash = Bytes -> Digest
  type CallId = nat
  type TempName = nat

  /** What is left to do with the temp file. */
  datatype Stage = Streaming | Copied | Closed | Verified

  /** Where one call of DownloadOVAToDir stands. */
  datatype Pc =
    | Waiting                    // lock file open, blocked in flock
    | Checking                   // lock held, cached copy not looked at yet
    | Missed                     // no usable cached copy, request not answered yet
    | Responded(body: Bytes)     // 200 received, no temp file yet
    // n bytes copied, hashed fed to the hasher
    | Writing(stage: Stage, tmp: TempName, body: Bytes, n: nat, hashed: Bytes)
    | Cleaning(tmp: TempName, ok: bool)   // deferred close and remove of the temp file
    | Unlocking(ok: bool)        // deferred unlock
    | Done(ok: bool)
    | Crashed

  datatype Call = Call(path: Path, expected: Digest, pc: Pc)

  datatype State = State(
    calls: map<CallId, Call>,
    locks: map<Path, CallId>,        // the kernel's exclusive flocks, by cache path
    cached: map<Path, Bytes>,
    temps: map<TempName, Bytes>,
    used: set<TempName>)             // every temp name handed out so far

  datatype Action =
    | Start(c: CallId, path: Path, expected: Digest)
    | Acquire(c: CallId)
    | Check(c: CallId)
    | CheckReadFault(c: CallId)                // hashing or stat of a present file fails
    | Respond(c: CallId, status: int, body: Bytes)
    | CreateTemp(c: CallId, tmp: TempName)
    | Chunk(c: CallId, k: nat)
    | Eof(c: CallId)                           // io.Copy returned nil
    | Close(c: CallId)
    | Verify(c: CallId)
    | Rename(c: CallId)
    | Remove(c: CallId)
    | Unlock(c: CallId)
    | Fails(c: CallId)                         // the foreign call the code has reached returns an error
    | Crash(c: CallId)

  predicate Active(pc: Pc) {
    !pc.Done? && !pc.Crashed?
  }

  /** Between lock and unlock. */
  predicate Inside(pc: Pc) {
    Active(pc) && !pc.Waiting?
  }

  predicate HasTemp(pc: Pc) {
    pc.Writing? || pc.Cleaning?
  }

  /** The cached copy was rejected and the replacement is not in place yet. */
  predicate Downloading(pc: Pc) {
    pc.Missed? || pc.Responded? || pc.Writing?
  }

  /** The digest test both for the cached copy and for what was streamed. */
  predicate Accepts(h: Hash, expected: Digest, content: Bytes) {
    expected == "" || h(content) == expected
  }

  predicate Enabled(s: State, a: Action) {
    if a.Start? then a.c !in s.calls else
    && a.c in s.calls
    && var pc := s.calls[a.c].pc;
    match a
    case Acquire(c) => pc.Waiting? && s.calls[c].path !in s.locks
    case Check(_) => pc.Checking?
    case CheckReadFault(c) => pc.Checking? && s.calls[c].path in s.cached
    case Respond(_, _, _) => pc.Missed?
    case CreateTemp(_, tmp) => pc.Responded? && tmp !in s.used
    case Chunk(_, k) => pc.Writing? && pc.stage.Streaming? && 0 < k && pc.n + k <= |pc.body|
    case Eof(_) => pc.Writing? && pc.stage.Streaming? && pc.n == |pc.body|
    case Close(_) => pc.Writing? && pc.stage.Copied?
    case Verify(_) => pc.Writing? && pc.stage.Closed?
    case Rename(_) => pc.Writing? && pc.stage.Verified?
    case Remove(_) => pc.Cleaning?
    case Unlock(_) => pc.Unlocking?
    case Fails(_) =>
      pc.Waiting? || pc.Missed? || pc.Responded? || (pc.Writing? && !pc.stage.Closed?) || pc.Cleaning?
    case Crash(_) => Active(pc)
  }

  /** Where the acting call stands after its step. */
  function NextPc(h: Hash, s: State, a: Action): Pc
    requires Enabled(s, a)
  {
    if a.Start? then Waiting else
    var Call(path, expected, pc) := s.calls[a.c];
    match a
    case Acquire(_) => Checking
    case Check(_) => if path in s.cached && Accepts(h, expected, s.cached[path]) then Unlocking(true) else Missed
    case CheckReadFault(_) => Missed
    case Respond(_, status, body) => if status == 200 then Responded(body) else Unlocking(false)
    case CreateTemp(_, tmp) => Writing(Streaming, tmp, pc.body, 0, [])
    case Chunk(_, k) =>
      pc.(n := pc.n + k, hashed := if expected != "" then pc.hashed + pc.body[pc.n .. pc.n + k] else pc.hashed)
    case Eof(_) => pc.(stage := Copied)
    case Close(_) => pc.(stage := Closed)
    case Verify(_) => if Accepts(h, expected, pc.hashed) then pc.(stage := Verified) else Cleaning(pc.tmp, false)
    case Rename(_) => Cleaning(pc.tmp, true)
    case Remove(_) => Unlocking(pc.ok)
    case Unlock(_) => Done(pc.ok)
    case Fails(_) =>
      if pc.Waiting? then Done(false)
      else if pc.Writing? then Cleaning(pc.tmp, false)
      else if pc.Cleaning? then Unlocking(pc.ok)      // the error of os.Remove is ignored
      else Unlocking(false)
    case Crash(_) => Crashed
  }

  function NextCalls(h: Hash, s: State, a: Action): map<CallId, Call>
    requires Enabled(s, a)
  {
    s.calls[a.c := if a.Start? then Call(a.path, a.expected, Waiting) else s.calls[a.c].(pc := NextPc(h, s, a))]
  }

  function NextLocks(s: State, a: Action): map<Path, CallId>
    requires Enabled(s, a)
  {
    if a.Acquire? then s.locks[s.calls[a.c].path := a.c]
    else if a.Unlock? || (a.Crash? && Inside(s.calls[a.c].pc)) then s.locks - {s.calls[a.c].path}
    else s.locks
  }

  /** Only a rename touches the cached files. */
  function NextCached(s: State, a: Action): map<Path, Bytes>
    requires Enabled(s, a)
  {
    if a.Rename? && s.calls[a.c].pc.tmp in s.temps
    then s.cached[s.calls[a.c].path := s.temps[s.calls[a.c].pc.tmp]]
    else s.cached
  }

  function NextTemps(s: State, a: Action): map<TempName, Bytes>
    requires Enabled(s, a)
  {
    if a.CreateTemp? then s.temps[a.tmp := []]
    else if a.Chunk? then
      var pc := s.calls[a.c].pc;
      if pc.tmp in s.temps then s.temps[pc.tmp := s.temps[pc.tmp] + pc.body[pc.n .. pc.n + a.k]] else s.temps
    else if a.Rename? || a.Remove? then s.temps - {s.calls[a.c].pc.tmp}
    else s.temps
  }

  function Apply(h: Hash, s: State, a: Action): State
    requires Enabled(s, a)
  {
    State(NextCalls(h, s, a), NextLocks(s, a), NextCached(s, a), NextTemps(s, a),
          if a.CreateTemp? then s.used + {a.tmp} else s.used)
  }

  /** A run is a list of actions, each enabled where it happens. */
  predicate Legal(h: Hash, s: State, acts: seq<Action>)
    decreases |acts|, 0
  {
    acts == [] || (Legal(h, s, Init(acts)) && Enabled(Run(h, s, Init(acts)), Last(acts)))
  }

  function Run(h: Hash, s: State, acts: seq<Action>): State
    requires Legal(h, s, acts)
    decreases |acts|, 1
  {
    if acts == [] then s else Apply(h, Run(h, s, Init(acts)), Last(acts))
  }

  /** The last step of a run. */
  lemma LastStep(h: Hash, s: State, acts: seq<Action>)
    requires acts != [] && Legal(h, s, acts)
    ensures Legal(h, s, Init(acts)) && Enabled(Run(h, s, Init(acts)), Last(acts))
    ensures Run(h, s, acts) == Apply(h, Run(h, s, Init(acts)), Last(acts))
  {
  }

  /** No call yet and no lock held; cache and leftover temp files are arbitrary. */
  predicate Fresh(s: State) {
    s.calls == map[] && s.locks == map[] && s.temps.Keys <= s.used
  }

  // ---------------------------------------------------------------- invariant

  /** What is true of one call in every reachable state. */
  ghost predicate CallOk(h: Hash, s: State, c: CallId)
    requires c in s.calls
  {
    var Call(path, expected, pc) := s.calls[c];
    && (Inside(pc) ==> path in s.locks && s.locks[path] == c)
    && (HasTemp(pc) ==> pc.tmp in s.used)
    && (pc.Writing? ==>
          && pc.tmp in s.temps
          && pc.n <= |pc.body|
          && s.temps[pc.tmp] == pc.body[..pc.n]
          && (expected != "" ==> pc.hashed == pc.body[..pc.n])
          && (!pc.stage.Streaming? ==> pc.n == |pc.body|)
          && (pc.stage.Verified? ==> Accepts(h, expected, pc.body)))
    && ((pc.Cleaning? || pc.Unlocking?) && pc.ok ==> path in s.cached && Accepts(h, expected, s.cached[path]))
  }

  ghost predicate OwnsTemp(s: State, c: CallId) {
    c in s.calls && HasTemp(s.calls[c].pc)
  }

  ghost predicate Inv(h: Hash, s: State) {
    && (forall c :: c in s.calls ==> CallOk(h, s, c))
    && (forall p :: p in s.locks ==>
          s.locks[p] in s.calls && s.calls[s.locks[p]].path == p && Inside(s.calls[s.locks[p]].pc))
    && (forall c, d :: OwnsTemp(s, c) && OwnsTemp(s, d) && c != d ==> s.calls[c].pc.tmp != s.calls[d].pc.tmp)
    && s.temps.Keys <= s.used
  }

  // What one step does to the program counter of its call.

  lemma PcTemp(h: Hash, s: State, a: Action)
    requires Enabled(s, a)
    ensures HasTemp(NextPc(h, s, a)) ==>
      || (a.CreateTemp? && NextPc(h, s, a).tmp == a.tmp)
      || (OwnsTemp(s, a.c) && NextPc(h, s, a).tmp == s.calls[a.c].pc.tmp)
  {
  }

  lemma PcInside(h: Hash, s: State, a: Action)
    requires Enabled(s, a)
    ensures Inside(NextPc(h, s, a)) <==>
      a.Acquire? || (a.c in s.calls && Inside(s.calls[a.c].pc) && !a.Unlock? && !a.Crash?)
    ensures a.Unlock? ==> Inside(s.calls[a.c].pc)
  {
  }

  lemma StepOwnsTemp(h: Hash, s: State, a: Action)
    requires Inv(h, s) && Enabled(s, a)
    ensures var s' := Apply(h, s, a);
      forall c, d :: OwnsTemp(s', c) && OwnsTemp(s', d) && c != d ==> s'.calls[c].pc.tmp != s'.calls[d].pc.tmp
  {
    PcTemp(h, s, a);
    hide NextPc;
    var s' := Apply(h, s, a);
    forall c, d | OwnsTemp(s', c) && OwnsTemp(s', d) && c != d
      ensures s'.calls[c].pc.tmp != s'.calls[d].pc.tmp
    {
      assert c != a.c ==> s'.calls[c] == s.calls[c] && CallOk(h, s, c);
      assert d != a.c ==> s'.calls[d] == s.calls[d] && CallOk(h, s, d);
    }
  }

  /** A call whose lock, cached file and temp file are untouched is as it was. */
  lemma CallOkCarries(h: Hash, s: State, t: State, d: CallId)
    requires d in s.calls && d in t.calls && t.calls[d] == s.calls[d] && CallOk(h, s, d)
    requires var Call(path, _, pc) := s.calls[d];
      Inside(pc) ==>
        && path in t.locks && t.locks[path] == d
        && (path in s.cached ==> path in t.cached && t.cached[path] == s.cached[path])
    requires var pc := s.calls[d].pc;
      HasTemp(pc) ==>
        pc.tmp in t.used && (pc.tmp in s.temps ==> pc.tmp in t.temps && t.temps[pc.tmp] == s.temps[pc.tmp])
    ensures CallOk(h, t, d)
  {
  }

  /** A step of one call leaves the others as they were. */
  lemma StepOther(h: Hash, s: State, a: Action, d: CallId)
    requires Inv(h, s) && Enabled(s, a) && d in s.calls && d != a.c
    ensures CallOk(h, Apply(h, s, a), d)
  {
    if Inside(s.calls[d].pc) { OtherLocks(h, s, a, d); }
    if HasTemp(s.calls[d].pc) { OtherTemps(h, s, a, d); }
    assert CallOk(h, s, d);
    assert Apply(h, s, a).calls[d] == s.calls[d];
    hide Inv, Enabled, Apply, CallOk;
    CallOkCarries(h, s, Apply(h, s, a), d);
  }

  /** What call d relies on: its lock and, while it holds the lock, the cached file ... */
  lemma OtherLocks(h: Hash, s: State, a: Action, d: CallId)
    requires Inv(h, s) && Enabled(s, a) && d in s.calls && d != a.c && Inside(s.calls[d].pc)
    ensures var s', path := Apply(h, s, a), s.calls[d].path;
      && path in s'.locks && s'.locks[path] == d
      && (path in s.cached ==> path in s'.cached && s'.cached[path] == s.cached[path])
  {
    PcInside(h, s, a);
    hide NextPc, NextTemps;
    assert CallOk(h, s, d);
    if a.c in s.calls { assert CallOk(h, s, a.c); }
  }

  /** ... and its temp file. */
  lemma OtherTemps(h: Hash, s: State, a: Action, d: CallId)
    requires Inv(h, s) && Enabled(s, a) && d in s.calls && d != a.c && HasTemp(s.calls[d].pc)
    ensures var s', tmp := Apply(h, s, a), s.calls[d].pc.tmp;
      tmp in s'.used && (tmp in s.temps ==> tmp in s'.temps && s'.temps[tmp] == s.temps[tmp])
  {
    hide NextPc, NextLocks, NextCached;
    assert CallOk(h, s, d);
    assert OwnsTemp(s, d);
    if OwnsTemp(s, a.c) {
      assert s.calls[a.c].pc.tmp != s.calls[d].pc.tmp;
    }
  }

  /** A fully copied temp file holds the body. */
  lemma WholeBody(h: Hash, s: State, c: CallId)
    requires Inv(h, s) && c in s.calls && s.calls[c].pc.Writing?
    requires !s.calls[c].pc.stage.Streaming? || s.calls[c].pc.n == |s.calls[c].pc.body|
    ensures var Call(_, expected, pc) := s.calls[c];
      && pc.tmp in s.temps && s.temps[pc.tmp] == pc.body
      && (expected != "" ==> pc.hashed == pc.body)
      && (pc.stage.Verified? ==> Accepts(h, expected, pc.body))
  {
    assert CallOk(h, s, c);
    assert s.calls[c].pc.body[..s.calls[c].pc.n] == s.calls[c].pc.body;
  }

  lemma StepSelfChunk(h: Hash, s: State, a: Action)
    requires Inv(h, s) && Enabled(s, a) && a.Chunk?
    ensures CallOk(h, Apply(h, s, a), a.c)
  {
    assert CallOk(h, s, a.c);
    var pc := s.calls[a.c].pc;
    assert pc.body[..pc.n] + pc.body[pc.n .. pc.n + a.k] == pc.body[..pc.n + a.k];
  }

  lemma StepSelfStored(h: Hash, s: State, a: Action)
    requires Inv(h, s) && Enabled(s, a) && (a.Verify? || a.Rename?)
    ensures CallOk(h, Apply(h, s, a), a.c)
  {
    assert CallOk(h, s, a.c);
    WholeBody(h, s, a.c);
  }

  lemma StepSelfEarly(h: Hash, s: State, a: Action)
    requires Inv(h, s) && Enabled(s, a)
    requires a.Start? || a.Acquire? || a.Check? || a.CheckReadFault? || a.Respond? || a.CreateTemp?
    ensures CallOk(h, Apply(h, s, a), a.c)
  {
    if !a.Start? { assert CallOk(h, s, a.c); }
  }

  lemma StepSelfLate(h: Hash, s: State, a: Action)
    requires Inv(h, s) && Enabled(s, a) && (a.Eof? || a.Close? || a.Remove? || a.Unlock? || a.Fails? || a.Crash?)
    ensures CallOk(h, Apply(h, s, a), a.c)
  {
    assert CallOk(h, s, a.c);
  }

  lemma StepSelf(h: Hash, s: State, a: Action)
    requires Inv(h, s) && Enabled(s, a)
    ensures CallOk(h, Apply(h, s, a), a.c)
  {
    hide Inv, Enabled, CallOk, Apply;
    match a
    case Chunk(_, _) => StepSelfChunk(h, s, a);
    case Verify(_) => StepSelfStored(h, s, a);
    case Rename(_) => StepSelfStored(h, s, a);
    case Eof(_) => StepSelfLate(h, s, a);
    case Close(_) => StepSelfLate(h, s, a);
    case Remove(_) => StepSelfLate(h, s, a);
    case Unlock(_) => StepSelfLate(h, s, a);
    case Fails(_) => StepSelfLate(h, s, a);
    case Crash(_) => StepSelfLate(h, s, a);
    case _ => StepSelfEarly(h, s, a);
  }

  lemma StepLocks(h: Hash, s: State, a: Action)
    requires Inv(h, s) && Enabled(s, a)
    ensures var s' := Apply(h, s, a);
      forall p :: p in s'.locks ==>
        s'.locks[p] in s'.calls && s'.calls[s'.locks[p]].path == p && Inside(s'.calls[s'.locks[p]].pc)
  {
    PcInside(h, s, a);
    hide NextPc;
    var s' := Apply(h, s, a);
    forall p | p in s'.locks
      ensures s'.locks[p] in s'.calls && s'.calls[s'.locks[p]].path == p && Inside(s'.calls[s'.locks[p]].pc)
    {
      if !a.Start? {
        assert CallOk(h, s, a.c);
      }
    }
  }

  lemma StepKeepsInv(h: Hash, s: State, a: Action)
    requires Inv(h, s) && Enabled(s, a)
    ensures Inv(h, Apply(h, s, a))
  {
    var s' := Apply(h, s, a);
    forall c | c in s'.calls
      ensures CallOk(h, s', c)
    {
      if c == a.c { StepSelf(h, s, a); } else { StepOther(h, s, a, c); }
    }
    StepLocks(h, s, a);
    StepOwnsTemp(h, s, a);
  }

  lemma FreshInv(h: Hash, s: State)
    requires Fresh(s)
    ensures Inv(h, s)
  {
  }

  lemma {:induction false} RunKeepsInv(h: Hash, s: State, acts: seq<Action>)
    requires Inv(h, s) && Legal(h, s, acts)
    ensures Inv(h, Run(h, s, acts))
    decreases |acts|
  {
    if acts != [] {
      RunKeepsInv(h, s, Init(acts));
      StepKeepsInv(h, Run(h, s, Init(acts)), Last(acts));
    }
  }

  // ---------------------------------------------------------------- mutual exclusion and the meaning of success

  /** At most one call per cache path is between lock and unlock, whatever the interleaving and the crashes. */
  lemma MutualExclusion(h: Hash, s: State, acts: seq<Action>, c: CallId, d: CallId)
    requires Fresh(s) && Legal(h, s, acts)
    requires var t := Run(h, s, acts); c in t.calls && d in t.calls && Inside(t.calls[c].pc) && Inside(t.calls[d].pc)
    requires var t := Run(h, s, acts); t.calls[c].path == t.calls[d].path
    ensures c == d
  {
    RunKeepsInv(h, s, acts);
    assert CallOk(h, Run(h, s, acts), c) && CallOk(h, Run(h, s, acts), d);
  }

  /** A call that is about to report success, or is only waiting to clean up, does so while the cached file is good. */
  lemma SuccessMeansMatch(h: Hash, s: State, acts: seq<Action>, c: CallId)
    requires Fresh(s) && Legal(h, s, acts)
    requires c in Run(h, s, acts).calls
    requires var pc := Run(h, s, acts).calls[c].pc; (pc.Unlocking? || pc.Cleaning?) && pc.ok
    ensures var t := Run(h, s, acts);
      t.calls[c].path in t.cached && Accepts(h, t.calls[c].expected, t.cached[t.calls[c].path])
  {
    RunKeepsInv(h, s, acts);
    assert CallOk(h, Run(h, s, acts), c);
  }

  // ---------------------------------------------------------------- refinement of an atomic whole-body store

  /**
   The simple cache: it knows which path a call is for and which body the server
   sent it with status 200, and a rename stores that whole body.  No temp files, chunks or hashes.
   */
  datatype Simple = Simple(paths: map<CallId, Path>, bodies: map<CallId, Bytes>, content: map<Path, Bytes>)

  function SimpleStep(r: Simple, a: Action): Simple {
    match a
    case Start(c, path, _) => r.(paths := r.paths[c := path])
    case Respond(c, status, body) => if status == 200 then r.(bodies := r.bodies[c := body]) else r
    case Rename(c) =>
      if c in r.paths && c in r.bodies then r.(content := r.content[r.paths[c] := r.bodies[c]]) else r
    case _ => r
  }

  function SimpleRun(content: map<Path, Bytes>, acts: seq<Action>): Simple {
    if acts == [] then Simple(map[], map[], content) else SimpleStep(SimpleRun(content, Init(acts)), Last(acts))
  }

  ghost predicate Simulates(s: State, r: Simple) {
    && r.content == s.cached
    && (forall c :: c in s.calls ==> c in r.paths && r.paths[c] == s.calls[c].path)
    && (forall c :: c in s.calls && (s.calls[c].pc.Writing? || s.calls[c].pc.Responded?) ==>
          c in r.bodies && r.bodies[c] == s.calls[c].pc.body)
  }

  lemma PcBody(h: Hash, s: State, a: Action)
    requires Enabled(s, a)
    ensures var next := NextPc(h, s, a);
      next.Writing? || next.Responded? ==>
        if a.Respond? then a.status == 200 && next.body == a.body
        else
          && a.c in s.calls && (s.calls[a.c].pc.Writing? || s.calls[a.c].pc.Responded?)
          && next.body == s.calls[a.c].pc.body
  {
  }

  lemma RenameSimulates(h: Hash, s: State, r: Simple, a: Action)
    requires Inv(h, s) && Enabled(s, a) && Simulates(s, r) && a.Rename?
    ensures SimpleStep(r, a).content == Apply(h, s, a).cached
  {
    WholeBody(h, s, a.c);
    hide Inv;
  }

  lemma StepSimulates(h: Hash, s: State, r: Simple, a: Action)
    requires Inv(h, s) && Enabled(s, a) && Simulates(s, r)
    ensures Simulates(Apply(h, s, a), SimpleStep(r, a))
  {
    var s', r' := Apply(h, s, a), SimpleStep(r, a);
    if a.Rename? { RenameSimulates(h, s, r, a); }
    PcBody(h, s, a);
    hide Inv, NextPc;
    assert r'.content == s'.cached;
    forall c | c in s'.calls
      ensures c in r'.paths && r'.paths[c] == s'.calls[c].path
      ensures s'.calls[c].pc.Writing? || s'.calls[c].pc.Responded? ==>
        c in r'.bodies && r'.bodies[c] == s'.calls[c].pc.body
    {
      if c != a.c {
        assert s'.calls[c] == s.calls[c];
      }
    }
  }

  lemma {:induction false} RunRefinesSimple(h: Hash, s: State, acts: seq<Action>)
    requires Fresh(s) && Legal(h, s, acts)
    ensures Run(h, s, acts).cached == SimpleRun(s.cached, acts).content
    ensures Simulates(Run(h, s, acts), SimpleRun(s.cached, acts))
    decreases |acts|
  {
    if acts != [] {
      RunRefinesSimple(h, s, Init(acts));
      RunKeepsInv(h, s, Init(acts));
      StepSimulates(h, Run(h, s, Init(acts)), SimpleRun(s.cached, Init(acts)), Last(acts));
    }
  }

  /** body is what the server sent for call acts[i].c, and acts[j] moved it onto path p. */
  ghost predicate Delivered(s: State, acts: seq<Action>, p: Path, body: Bytes, i: int, j: int) {
    && 0 <= i < j < |acts|
    && acts[i].Respond? && acts[i].status == 200 && acts[i].body == body
    && acts[j] == Rename(acts[i].c)
    && acts[i].c in s.calls && s.calls[acts[i].c].path == p
  }

  lemma {:induction false} BodyComesFromResponse(content: map<Path, Bytes>, acts: seq<Action>, c: CallId)
    requires c in SimpleRun(content, acts).bodies
    ensures exists i :: 0 <= i < |acts| && acts[i] == Respond(c, 200, SimpleRun(content, acts).bodies[c])
    decreases |acts|
  {
    if Last(acts).Respond? && Last(acts).c == c && Last(acts).status == 200 {
      assert acts[|acts| - 1] == Respond(c, 200, SimpleRun(content, acts).bodies[c]);
    } else {
      BodyComesFromResponse(content, Init(acts), c);
    }
  }

  lemma CallsKeepTheirPath(h: Hash, s: State, a: Action, c: CallId)
    requires Enabled(s, a) && c in s.calls
    ensures var s' := Apply(h, s, a);
      c in s'.calls && s'.calls[c].path == s.calls[c].path && s'.calls[c].expected == s.calls[c].expected
  {
  }

  lemma CachedStep(h: Hash, s: State, a: Action, p: Path)
    requires Enabled(s, a)
    ensures var t := Apply(h, s, a);
      if a.Rename? && s.calls[a.c].path == p && s.calls[a.c].pc.tmp in s.temps
      then p in t.cached && t.cached[p] == s.temps[s.calls[a.c].pc.tmp]
      else (p in t.cached <==> p in s.cached) && (p in s.cached ==> t.cached[p] == s.cached[p])
  {
  }

  /** A rename onto p delivers the body that the server sent for that call. */
  lemma RenameDelivers(h: Hash, s: State, pre: seq<Action>, a: Action, p: Path)
    requires Fresh(s) && Legal(h, s, pre) && Enabled(Run(h, s, pre), a) && a.Rename?
    requires Run(h, s, pre).calls[a.c].path == p
    ensures var t := Apply(h, Run(h, s, pre), a);
      p in t.cached && exists i :: Delivered(t, pre + [a], p, t.cached[p], i, |pre|)
  {
    hide Legal, Run, Inv;
    var mid := Run(h, s, pre);
    FreshInv(h, s);
    RunKeepsInv(h, s, pre);
    WholeBody(h, mid, a.c);
    RunRefinesSimple(h, s, pre);
    BodyComesFromResponse(s.cached, pre, a.c);
    var i :| 0 <= i < |pre| && pre[i] == Respond(a.c, 200, mid.calls[a.c].pc.body);
    var t := Apply(h, mid, a);
    assert (pre + [a])[i] == pre[i] && (pre + [a])[|pre|] == a;
    assert Delivered(t, pre + [a], p, t.cached[p], i, |pre|);
  }

  /** What was delivered stays delivered. */
  lemma StillDelivered(h: Hash, s: State, pre: seq<Action>, a: Action, p: Path, body: Bytes, i: int, j: int)
    requires Delivered(s, pre, p, body, i, j) && Enabled(s, a)
    ensures Delivered(Apply(h, s, a), pre + [a], p, body, i, j)
  {
    CallsKeepTheirPath(h, s, a, pre[i].c);
    assert (pre + [a])[i] == pre[i] && (pre + [a])[j] == pre[j];
  }

  /** p has its initial content or the whole body of one completed response. */
  ghost predicate Sourced(s0: State, s: State, acts: seq<Action>, p: Path) {
    p in s.cached ==>
      || (p in s0.cached && s.cached[p] == s0.cached[p])
      || exists i, j :: Delivered(s, acts, p, s.cached[p], i, j)
  }

  lemma StepSourced(h: Hash, s: State, pre: seq<Action>, a: Action, p: Path)
    requires Fresh(s) && Legal(h, s, pre) && Enabled(Run(h, s, pre), a) && Sourced(s, Run(h, s, pre), pre, p)
    ensures Sourced(s, Apply(h, Run(h, s, pre), a), pre + [a], p)
    ensures p in Run(h, s, pre).cached ==> p in Apply(h, Run(h, s, pre), a).cached
  {
    hide Legal, Run;
    var mid := Run(h, s, pre);
    CachedStep(h, mid, a, p);
    if a.Rename? && mid.calls[a.c].path == p {
      RenameDelivers(h, s, pre, a, p);
    } else if p in mid.cached && !(p in s.cached && mid.cached[p] == s.cached[p]) {
      var i, j :| Delivered(mid, pre, p, mid.cached[p], i, j);
      StillDelivered(h, mid, pre, a, p, mid.cached[p], i, j);
      hide Apply, Delivered, Enabled;
    }
  }

  /** The cached file is its initial content or the whole body of one completed response; it never disappears. */
  lemma {:induction false} CacheContent(h: Hash, s: State, acts: seq<Action>, p: Path)
    requires Fresh(s) && Legal(h, s, acts)
    ensures p in s.cached ==> p in Run(h, s, acts).cached
    ensures Sourced(s, Run(h, s, acts), acts, p)
    decreases |acts|
  {
    hide Sourced, Apply, Enabled;
    if acts == [] {
      assert Sourced(s, s, acts, p) by { StartSourced(s, p); }
    } else {
      CacheContent(h, s, Init(acts), p);
      StepSourced(h, s, Init(acts), Last(acts), p);
      assert acts == Init(acts) + [Last(acts)];
    }
  }

  lemma StartSourced(s: State, p: Path)
    ensures Sourced(s, s, [], p)
  {
  }

  // ---------------------------------------------------------------- callers that agree on the digest

  /** Every call for p asks for digest e. */
  predicate Agree(acts: seq<Action>, p: Path, e: Digest) {
    forall a :: a in acts && a.Start? && a.path == p ==> a.expected == e
  }

  predicate Matches(h: Hash, s: State, p: Path, e: Digest) {
    p in s.cached && h(s.cached[p]) == e
  }

  predicate Replacing(s: State, p: Path) {
    p in s.locks && s.locks[p] in s.calls && Downloading(s.calls[s.locks[p]].pc)
  }

  predicate OnPath(s: State, a: Action, p: Path) {
    a.c in s.calls && s.calls[a.c].path == p
  }

  /** How many renames onto p the run contains. */
  function Renames(h: Hash, s: State, acts: seq<Action>, p: Path): nat
    requires Legal(h, s, acts)
  {
    if acts == [] then 0 else
      Renames(h, s, Init(acts), p) + if Last(acts).Rename? && OnPath(Run(h, s, Init(acts)), Last(acts), p) then 1 else 0
  }

  /** The cached copy of p is good and cannot be read. */
  predicate GoodFault(h: Hash, s: State, a: Action, p: Path, e: Digest) {
    a.CheckReadFault? && OnPath(s, a, p) && Matches(h, s, p, e)
  }

  /** How often a good copy of p could not be read. */
  function GoodFaults(h: Hash, s: State, acts: seq<Action>, p: Path, e: Digest): nat
    requires Legal(h, s, acts)
  {
    if acts == [] then 0 else
      GoodFaults(h, s, Init(acts), p, e) + if GoodFault(h, Run(h, s, Init(acts)), Last(acts), p, e) then 1 else 0
  }

  function Bit(b: bool): nat {
    if b then 1 else 0
  }

  ghost predicate Agreed(s: State, p: Path, e: Digest) {
    forall c :: c in s.calls && s.calls[c].path == p ==> s.calls[c].expected == e
  }

  /** Steps that only a call without a usable cached copy takes. */
  predicate Downloads(a: Action) {
    a.Respond? || a.CreateTemp? || a.Chunk? || a.Eof? || a.Close? || a.Verify? || a.Rename?
  }

  /** Only a look at the cached copy starts a replacement, and only a rename changes the copy, to an accepted one. */
  lemma StepReplacing(h: Hash, s: State, a: Action, p: Path, e: Digest)
    requires Inv(h, s) && Enabled(s, a) && Agreed(s, p, e) && e != ""
    ensures Replacing(Apply(h, s, a), p) && !(a.Rename? && OnPath(s, a, p)) ==>
      Replacing(s, p) || !Matches(h, s, p, e) || GoodFault(h, s, a, p, e)
  {
    if a.c in s.calls {
      assert CallOk(h, s, a.c);
    }
  }

  lemma RenameMatches(h: Hash, s: State, a: Action, p: Path, e: Digest)
    requires Inv(h, s) && Enabled(s, a) && Agreed(s, p, e) && e != "" && a.Rename? && OnPath(s, a, p)
    ensures Matches(h, Apply(h, s, a), p, e) && !Replacing(Apply(h, s, a), p)
  {
    assert CallOk(h, s, a.c);
    WholeBody(h, s, a.c);
    hide Inv;
  }

  lemma StepRenames(h: Hash, s: State, a: Action, p: Path, e: Digest)
    requires Inv(h, s) && Enabled(s, a) && Agreed(s, p, e) && e != ""
    ensures var t := Apply(h, s, a);
      if a.Rename? && OnPath(s, a, p) then Matches(h, t, p, e) && !Replacing(t, p)
      else (p in t.cached <==> p in s.cached) && (p in s.cached ==> t.cached[p] == s.cached[p])
  {
    CachedStep(h, s, a, p);
    if a.Rename? && OnPath(s, a, p) {
      RenameMatches(h, s, a, p, e);
    }
    hide Inv, Apply, Agreed, Matches, Replacing;
  }

  /** Whoever downloads for p is replacing it. */
  lemma DownloadsReplace(h: Hash, s: State, a: Action, p: Path)
    requires Inv(h, s) && Enabled(s, a) && Downloads(a) && OnPath(s, a, p)
    ensures Replacing(s, p)
  {
    assert CallOk(h, s, a.c);
  }

  lemma StepBudget(h: Hash, s: State, a: Action, p: Path, e: Digest)
    requires Inv(h, s) && Enabled(s, a) && Agreed(s, p, e) && e != ""
    ensures var s' := Apply(h, s, a);
      Bit(a.Rename? && OnPath(s, a, p)) + Bit(Replacing(s', p) && Matches(h, s', p, e))
        <= Bit(Replacing(s, p) && Matches(h, s, p, e)) + Bit(GoodFault(h, s, a, p, e))
           + Bit(Matches(h, s', p, e)) - Bit(Matches(h, s, p, e))
    ensures Matches(h, s, p, e) ==> Matches(h, Apply(h, s, a), p, e)
  {
    hide Inv, Enabled, Apply, Agreed, Replacing, OnPath;
    StepReplacing(h, s, a, p, e);
    StepRenames(h, s, a, p, e);
    if a.Rename? && OnPath(s, a, p) {
      DownloadsReplace(h, s, a, p);
    }
  }

  lemma {:induction false} RunAgrees(h: Hash, s: State, acts: seq<Action>, p: Path, e: Digest)
    requires Agreed(s, p, e) && Legal(h, s, acts) && Agree(acts, p, e)
    ensures Agreed(Run(h, s, acts), p, e)
    decreases |acts|
  {
    if acts != [] {
      RunAgrees(h, s, Init(acts), p, e);
    }
  }

  /**
   When all callers of p expect the same digest, every rename beyond the first is
   paid for by a read fault on a copy that was already good.
   */
  lemma {:induction false} RenameBudget(h: Hash, s: State, acts: seq<Action>, p: Path, e: Digest)
    requires Fresh(s) && Legal(h, s, acts) && Agree(acts, p, e) && e != ""
    ensures var t := Run(h, s, acts);
      Renames(h, s, acts, p) + Bit(Replacing(t, p) && Matches(h, t, p, e))
        <= GoodFaults(h, s, acts, p, e) + Bit(Matches(h, t, p, e)) - Bit(Matches(h, s, p, e))
    decreases |acts|
  {
    if acts != [] {
      RenameBudget(h, s, Init(acts), p, e);
      RunKeepsInv(h, s, Init(acts));
      RunAgrees(h, s, Init(acts), p, e);
      StepBudget(h, Run(h, s, Init(acts)), Last(acts), p, e);
    }
  }

  /** While good copies can be read: at most one rename, and none when the file was good from the start. */
  lemma AtMostOneRename(h: Hash, s: State, acts: seq<Action>, p: Path, e: Digest)
    requires Fresh(s) && Legal(h, s, acts) && Agree(acts, p, e) && e != ""
    requires GoodFaults(h, s, acts, p, e) == 0
    ensures Renames(h, s, acts, p) <= 1
    ensures Matches(h, s, p, e) ==> Renames(h, s, acts, p) == 0
    ensures Renames(h, s, acts, p) == 1 ==> Matches(h, Run(h, s, acts), p, e)
  {
    RenameBudget(h, s, acts, p, e);
  }

  /** How many downloading steps the run takes for p. */
  function Fetches(h: Hash, s: State, acts: seq<Action>, p: Path): nat
    requires Legal(h, s, acts)
  {
    if acts == [] then 0 else
      Fetches(h, s, Init(acts), p)
      + if Downloads(Last(acts)) && OnPath(Run(h, s, Init(acts)), Last(acts), p) then 1 else 0
  }

  lemma StepStaysQuiet(h: Hash, s: State, a: Action, p: Path, e: Digest)
    requires Inv(h, s) && Enabled(s, a) && Agreed(s, p, e) && e != ""
    requires Matches(h, s, p, e) ==> !Replacing(s, p)
    requires !GoodFault(h, s, a, p, e)
    ensures var s' := Apply(h, s, a);
      Matches(h, s', p, e) ==> !Replacing(s', p)
    ensures Matches(h, s, p, e) ==>
      && p in Apply(h, s, a).cached && Apply(h, s, a).cached[p] == s.cached[p]
      && (OnPath(s, a, p) ==> !Downloads(a))
  {
    hide Inv, Enabled, Apply, Agreed, Replacing, OnPath, GoodFault;
    StepReplacing(h, s, a, p, e);
    StepRenames(h, s, a, p, e);
    if OnPath(s, a, p) && Downloads(a) {
      DownloadsReplace(h, s, a, p);
    }
  }

  /** The file is not being replaced while it is good. */
  ghost predicate Quiet(h: Hash, s: State, p: Path, e: Digest) {
    Inv(h, s) && Agreed(s, p, e) && (Matches(h, s, p, e) ==> !Replacing(s, p))
  }

  /** While good copies can be read nobody replaces one. */
  lemma {:induction false} StaysQuiet(h: Hash, s: State, acts: seq<Action>, p: Path, e: Digest)
    requires Quiet(h, s, p, e) && Legal(h, s, acts) && Agree(acts, p, e) && e != ""
    requires GoodFaults(h, s, acts, p, e) == 0
    ensures Quiet(h, Run(h, s, acts), p, e)
    ensures Matches(h, s, p, e) ==>
      && p in Run(h, s, acts).cached && Run(h, s, acts).cached[p] == s.cached[p]
      && Fetches(h, s, acts, p) == 0
    decreases |acts|
  {
    if acts != [] {
      StaysQuiet(h, s, Init(acts), p, e);
      RunKeepsInv(h, s, acts);
      RunAgrees(h, s, acts, p, e);
      StepStaysQuiet(h, Run(h, s, Init(acts)), Last(acts), p, e);
    }
  }

  /**
   Once the file is good and nobody is replacing it (which holds if no good copy was
   unreadable so far), it stays as it is for as long as it can be read: no step requests,
   streams or renames anything for that path.
   */
  lemma {:induction false} GoodCopyIsFinal(h: Hash, s: State, pre: seq<Action>, post: seq<Action>, p: Path, e: Digest)
    requires Fresh(s) && Legal(h, s, pre) && Agree(pre, p, e) && e != ""
    requires Legal(h, Run(h, s, pre), post) && Agree(post, p, e)
    requires Matches(h, Run(h, s, pre), p, e)
    requires !Replacing(Run(h, s, pre), p) || GoodFaults(h, s, pre, p, e) == 0
    requires GoodFaults(h, Run(h, s, pre), post, p, e) == 0
    ensures var m := Run(h, s, pre);
      && p in Run(h, m, post).cached && Run(h, m, post).cached[p] == m.cached[p]
      && Fetches(h, m, post, p) == 0
  {
    QuietMiddle(h, s, pre, p, e);
    StaysQuiet(h, Run(h, s, pre), post, p, e);
  }

  lemma QuietMiddle(h: Hash, s: State, pre: seq<Action>, p: Path, e: Digest)
    requires Fresh(s) && Legal(h, s, pre) && Agree(pre, p, e) && e != ""
    requires !Replacing(Run(h, s, pre), p) || GoodFaults(h, s, pre, p, e) == 0
    ensures Quiet(h, Run(h, s, pre), p, e)
  {
    hide Legal, Run, Matches;
    RunKeepsInv(h, s, pre);
    RunAgrees(h, s, pre, p, e);
    if Replacing(Run(h, s, pre), p) {
      StaysQuiet(h, s, pre, p, e);
    }
  }

  /** Where a call can be that only ever saw a good copy. */
  predicate OnlyHits(pc: Pc) {
    pc.Waiting? || pc.Checking? || pc == Unlocking(true) || pc == Done(true) || pc.Crashed?
  }

  lemma StepHits(h: Hash, s: State, a: Action, p: Path, e: Digest, c: CallId)
    requires Inv(h, s) && Enabled(s, a) && Agreed(s, p, e) && Matches(h, s, p, e) && e != ""
    requires !GoodFault(h, s, a, p, e) && a != Fails(c)
    requires c in s.calls && s.calls[c].path == p ==> OnlyHits(s.calls[c].pc)
    ensures var t := Apply(h, s, a);
      c in t.calls && t.calls[c].path == p ==> OnlyHits(t.calls[c].pc)
  {
    hide Inv;
  }

  /** A call that comes after the file is good ends in success, unless it is killed or its flock fails. */
  lemma {:induction false} LaterCallsHit(h: Hash, s: State, acts: seq<Action>, p: Path, e: Digest, c: CallId)
    requires Quiet(h, s, p, e) && Matches(h, s, p, e) && c !in s.calls
    requires Legal(h, s, acts) && Agree(acts, p, e) && e != "" && GoodFaults(h, s, acts, p, e) == 0
    requires Fails(c) !in acts
    ensures var t := Run(h, s, acts);
      c in t.calls && t.calls[c].path == p ==> OnlyHits(t.calls[c].pc)
    decreases |acts|
  {
    if acts != [] {
      LaterCallsHit(h, s, Init(acts), p, e, c);
      StaysQuiet(h, s, Init(acts), p, e);
      hide Inv, Agreed, OnlyHits;
      StepHits(h, Run(h, s, Init(acts)), Last(acts), p, e, c);
    }
  }

  // ---------------------------------------------------------------- temp files, progress

  /** Every temp file is either an old leftover or belongs to a call that will still clean it up. */
  ghost predicate Accounted(s0: State, s: State) {
    && s0.used <= s.used
    && (forall t :: t in s0.temps ==> t in s.temps && s.temps[t] == s0.temps[t])
    && (forall t :: t in s.temps && t !in s0.temps ==> exists c :: OwnsTemp(s, c) && s.calls[c].pc.tmp == t)
    && (forall c :: OwnsTemp(s, c) ==> s.calls[c].pc.tmp !in s0.used)
  }

  lemma StepTempFiles(h: Hash, s: State, a: Action, t: TempName)
    requires Inv(h, s) && Enabled(s, a)
    ensures var s' := Apply(h, s, a);
      && (t in s'.temps ==> t in s.temps || (a.CreateTemp? && t == a.tmp))
      && (t in s.temps ==>
        (t in s'.temps && s'.temps[t] == s.temps[t]) || (OwnsTemp(s, a.c) && t == s.calls[a.c].pc.tmp))
  {
  }

  lemma StepOwner(h: Hash, s: State, a: Action, c: CallId)
    requires Inv(h, s) && Enabled(s, a)
    requires !a.Crash? && !(a.Fails? && s.calls[a.c].pc.Cleaning?)
    ensures var s' := Apply(h, s, a);
      && (OwnsTemp(s, c) ==>
            (OwnsTemp(s', c) && s'.calls[c].pc.tmp == s.calls[c].pc.tmp) || s.calls[c].pc.tmp !in s'.temps)
      && (OwnsTemp(s', c) ==>
            || (OwnsTemp(s, c) && s'.calls[c].pc.tmp == s.calls[c].pc.tmp)
            || (a.CreateTemp? && c == a.c && s'.calls[c].pc.tmp == a.tmp))
      && (a.CreateTemp? ==> OwnsTemp(s', a.c) && s'.calls[a.c].pc.tmp == a.tmp && a.tmp !in s.used)
      && s.used <= s'.used
  {
    hide Inv;
  }

  lemma StepAccounts(h: Hash, s0: State, s: State, a: Action)
    requires Inv(h, s) && Enabled(s, a) && Accounted(s0, s) && s0.temps.Keys <= s0.used
    requires !a.Crash? && !(a.Fails? && s.calls[a.c].pc.Cleaning?)
    ensures Accounted(s0, Apply(h, s, a))
  {
    hide Apply, Enabled, NextPc, Inv;
    var s' := Apply(h, s, a);
    StepOwner(h, s, a, a.c);
    forall t | t in s0.temps
      ensures t in s'.temps && s'.temps[t] == s0.temps[t]
    {
      StepTempFiles(h, s, a, t);
    }
    forall t | t in s'.temps && t !in s0.temps
      ensures exists c :: OwnsTemp(s', c) && s'.calls[c].pc.tmp == t
    {
      StepTempFiles(h, s, a, t);
      if t in s.temps {
        var c :| OwnsTemp(s, c) && s.calls[c].pc.tmp == t;
        StepOwner(h, s, a, c);
      }
    }
    forall c | OwnsTemp(s', c)
      ensures s'.calls[c].pc.tmp !in s0.used
    {
      StepOwner(h, s, a, c);
    }
  }

  /** The run has no crash and every deferred remove succeeds. */
  predicate Tidy(h: Hash, s: State, acts: seq<Action>)
    requires Legal(h, s, acts)
  {
    acts == [] ||
    (&& Tidy(h, s, Init(acts))
     && !Last(acts).Crash?
     && (Last(acts).Fails? ==> !Run(h, s, Init(acts)).calls[Last(acts).c].pc.Cleaning?))
  }

  lemma {:induction false} TempsAreAccounted(h: Hash, s: State, acts: seq<Action>)
    requires Fresh(s) && Legal(h, s, acts) && Tidy(h, s, acts)
    ensures Accounted(s, Run(h, s, acts))
    decreases |acts|
  {
    if acts != [] {
      TempsAreAccounted(h, s, Init(acts));
      RunKeepsInv(h, s, Init(acts));
      StepAccounts(h, s, Run(h, s, Init(acts)), Last(acts));
    }
  }

  /** When every call has finished, the temp files are exactly the ones found at the start. */
  lemma NoTempLeftBehind(h: Hash, s: State, acts: seq<Action>)
    requires Fresh(s) && Legal(h, s, acts) && Tidy(h, s, acts)
    requires var t := Run(h, s, acts); forall c :: c in t.calls ==> !Active(t.calls[c].pc)
    ensures Run(h, s, acts).temps == s.temps
  {
    TempsAreAccounted(h, s, acts);
  }

  lemma {:induction false} UnusedName(used: set<TempName>) returns (t: TempName)
    ensures t !in used && forall u :: u in used ==> u < t
  {
    if used == {} {
      t := 0;
    } else {
      var u :| u in used;
      var t' := UnusedName(used - {u});
      t := if t' > u then t' else u + 1;
      assert used == (used - {u}) + {u};
    }
  }

  /** The action is the ordinary next step of its call: no failure, no crash, no new call. */
  predicate Productive(a: Action) {
    !a.Start? && !a.Fails? && !a.Crash? && !a.CheckReadFault?
  }

  lemma InsideCallCanStep(h: Hash, s: State, c: CallId) returns (a: Action)
    requires Inv(h, s) && c in s.calls && Inside(s.calls[c].pc)
    ensures a.c == c && Enabled(s, a) && Productive(a)
  {
    assert CallOk(h, s, c);
    var pc := s.calls[c].pc;
    match pc {
      case Checking => a := Check(c);
      case Missed => a := Respond(c, 200, []);
      case Responded(body) =>
        var t := UnusedName(s.used);
        a := CreateTemp(c, t);
      case Writing(stage, tmp, body, n, hashed) =>
        a := match stage
          case Streaming => if n < |body| then Chunk(c, |body| - n) else Eof(c)
          case Copied => Close(c)
          case Closed => Verify(c)
          case Verified => Rename(c);
      case Cleaning(tmp, ok) => a := Remove(c);
      case Unlocking(ok) => a := Unlock(c);
    }
  }

  /** No deadlock: an unfinished call can step itself, or the call holding its lock can; a crash never blocks. */
  lemma NoDeadlock(h: Hash, s: State, acts: seq<Action>, c: CallId) returns (a: Action)
    requires Fresh(s) && Legal(h, s, acts)
    requires c in Run(h, s, acts).calls && Active(Run(h, s, acts).calls[c].pc)
    ensures var t := Run(h, s, acts);
      Enabled(t, a) && Productive(a)
      && (a.c == c || (t.calls[c].pc.Waiting? && t.calls[c].path in t.locks && t.locks[t.calls[c].path] == a.c))
  {
    RunKeepsInv(h, s, acts);
    var t := Run(h, s, acts);
    if Inside(t.calls[c].pc) {
      a := InsideCallCanStep(h, t, c);
    } else if t.calls[c].path !in t.locks {
      a := Acquire(c);
    } else {
      a := InsideCallCanStep(h, t, t.locks[t.calls[c].path]);
    }
  }

  /** The steps call c has taken. */
  function StepsOf(acts: seq<Action>, c: CallId): nat {
    if acts == [] then 0 else StepsOf(Init(acts), c) + if Last(acts).c == c then 1 else 0
  }

  /** The length of the body call c was sent. */
  function BodyLength(acts: seq<Action>, c: CallId): nat {
    if acts == [] then 0
    else if Last(acts).Respond? && Last(acts).c == c then |Last(acts).body|
    else BodyLength(Init(acts), c)
  }

  /** How many steps a call can have behind it. */
  function StepBound(pc: Pc, length: nat): nat {
    match pc
    case Waiting => 1
    case Checking => 2
    case Missed => 3
    case Responded(_) => 4
    case Writing(stage, _, _, n, _) =>
      5 + n + (match stage case Streaming => 0 case Copied => 1 case Closed => 2 case Verified => 3)
    case Cleaning(_, _) => 9 + length
    case Unlocking(_) => 10 + length
    case Done(_) => 11 + length
    case Crashed => 12 + length
  }

  predicate StepsOk(s: State, acts: seq<Action>, c: CallId) {
    if c !in s.calls then StepsOf(acts, c) == 0
    else
      && StepsOf(acts, c) <= StepBound(s.calls[c].pc, BodyLength(acts, c))
      && (s.calls[c].pc.Responded? || s.calls[c].pc.Writing? ==> |s.calls[c].pc.body| == BodyLength(acts, c))
  }

  /** Each step of a call raises its bound by at least one. */
  lemma StepRaisesBound(h: Hash, s: State, a: Action, length: nat)
    requires Enabled(s, a) && a.c in s.calls
    requires s.calls[a.c].pc.Writing? ==> s.calls[a.c].pc.n <= |s.calls[a.c].pc.body|
    requires s.calls[a.c].pc.Responded? || s.calls[a.c].pc.Writing? ==> |s.calls[a.c].pc.body| == length
    ensures var next, length' := NextPc(h, s, a), if a.Respond? then |a.body| else length;
      && StepBound(s.calls[a.c].pc, length) + 1 <= StepBound(next, length')
      && (next.Responded? || next.Writing? ==> |next.body| == length')
  {
  }

  lemma WritingWithinBody(h: Hash, s: State, c: CallId)
    requires Inv(h, s)
    ensures c in s.calls && s.calls[c].pc.Writing? ==> s.calls[c].pc.n <= |s.calls[c].pc.body|
  {
    if c in s.calls { assert CallOk(h, s, c); }
  }

  lemma {:induction false} RunStepsOk(h: Hash, s: State, acts: seq<Action>, c: CallId)
    requires Fresh(s) && Legal(h, s, acts)
    ensures StepsOk(Run(h, s, acts), acts, c)
    decreases |acts|
  {
    if acts != [] {
      LastStep(h, s, acts);
      var mid, a := Run(h, s, Init(acts)), Last(acts);
      RunStepsOk(h, s, Init(acts), c);
      RunKeepsInv(h, s, Init(acts));
      WritingWithinBody(h, mid, c);
      hide Inv, Legal, Run, NextPc, StepBound;
      if a.c == c && !a.Start? {
        assert c in mid.calls by { EnabledIsKnown(mid, a); }
        StepRaisesBound(h, mid, a, BodyLength(Init(acts), c));
      }
      hide Enabled;
      assert StepBound(Waiting, 0) == 1 by { WaitingIsFirst(BodyLength(acts, c)); }
    }
  }

  lemma EnabledIsKnown(s: State, a: Action)
    requires Enabled(s, a) && !a.Start?
    ensures a.c in s.calls
  {
  }

  lemma WaitingIsFirst(length: nat)
    ensures StepBound(Waiting, length) == 1
  {
  }

  /** No call runs for ever: its own steps are bounded by the body it was sent. */
  lemma CallsAreBounded(h: Hash, s: State, acts: seq<Action>, c: CallId)
    requires Fresh(s) && Legal(h, s, acts)
    ensures StepsOf(acts, c) <= 12 + BodyLength(acts, c)
  {
    hide Inv, Legal, Run;
    FreshInv(h, s);
    RunStepsOk(h, s, acts, c);
    RunKeepsInv(h, s, acts);
    WritingWithinBody(h, Run(h, s, acts), c);
  }

  lemma Extend(h: Hash, s: State, acts: seq<Action>, a: Action)
    requires Legal(h, s, acts) && Enabled(Run(h, s, acts), a)
    ensures Legal(h, s, acts + [a]) && Run(h, s, acts + [a]) == Apply(h, Run(h, s, acts), a)
  {
    assert Init(acts + [a]) == acts && Last(acts + [a]) == a;
  }
}
