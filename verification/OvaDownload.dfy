/**
 One call of DownloadOVAToDir as the code is written: flock, cache check, request,
 temp file, streamed copy, digest, rename, and the deferred clean-up. Each effect
 is recorded as an action of the protocol in OvaCache, and before each of them any
 number of other calls may take any number of their steps, so the method's contract
 says that the code is a participant of the interleaved runs of that protocol,
 besides saying what it returns.
 */
module OvaDownload {
  import opened Wrappers
  import opened OvaCache

  /** What the server does: no response at all, or a status and a body in chunks that may break off. */
  datatype Reply =
    | NoResponse
    | Response(status: int, chunks: seq<Bytes>, broken: bool)

  /** Which local calls fail, and the name CreateTemp picks. */
  datatype Disk = Disk(
    tmp: TempName, flockFails: bool, readFails: bool, createFails: bool, writeFailsAt: Option<nat>,
    closeFails: bool, renameFails: bool, removeFails: bool)

  /** A call that waits for a lock that is never released does not return. */
  datatype Outcome = Blocked | Returned(ok: bool)

  datatype Grant = Refused | NeverGranted | Granted

  function Concat(chunks: seq<Bytes>): Bytes {
    if chunks == [] then [] else Concat(chunks[..|chunks| - 1]) + chunks[|chunks| - 1]
  }

  function FileIn(cached: map<Path, Bytes>, path: Path): Option<Bytes> {
    if path in cached then Some(cached[path]) else None
  }

  /** The temp name is not taken and no other call is going to be given it. */
  predicate Unused(used: set<TempName>, script: seq<seq<Action>>, tmp: TempName) {
    tmp !in used && forall batch, a :: batch in script && a in batch && a.CreateTemp? ==> a.tmp != tmp
  }

  /** What the steps of other calls leave to call c. */
  ghost predicate LeftTo(c: CallId, s: State, t: State) {
    && (c in s.calls <==> c in t.calls)
    && (c in s.calls ==>
          && t.calls[c] == s.calls[c]
          && (Inside(s.calls[c].pc) ==> FileIn(t.cached, s.calls[c].path) == FileIn(s.cached, s.calls[c].path)))
    && s.used <= t.used
    && (forall u :: u in s.used && u !in s.temps ==> u !in t.temps)
  }

  lemma LeftToAll(c: CallId, s: State, t: State, u: State)
    requires LeftTo(c, s, t) && LeftTo(c, t, u)
    ensures LeftTo(c, s, u)
  {
  }

  lemma OtherStep(h: Hash, c: CallId, s: State, a: Action)
    requires Inv(h, s) && Enabled(s, a) && a.c != c
    ensures Inv(h, Apply(h, s, a)) && LeftTo(c, s, Apply(h, s, a))
  {
    StepKeepsInv(h, s, a);
    var t := Apply(h, s, a);
    if c in s.calls && Inside(s.calls[c].pc) { OtherFile(h, s, a, c); }
    hide Inv;
  }

  /** Only the call that holds the lock of a path replaces its file. */
  lemma OtherFile(h: Hash, s: State, a: Action, c: CallId)
    requires Inv(h, s) && Enabled(s, a) && a.c != c && c in s.calls && Inside(s.calls[c].pc)
    ensures FileIn(NextCached(s, a), s.calls[c].path) == FileIn(s.cached, s.calls[c].path)
  {
    hide NextPc, NextTemps, NextLocks;
    assert CallOk(h, s, c);
    if a.c in s.calls { assert CallOk(h, s, a.c); }
  }

  lemma UnusedIsFree(used: set<TempName>, script: seq<seq<Action>>, tmp: TempName)
    requires Unused(used, script, tmp)
    ensures tmp !in used
  {
  }

  lemma TempsAreUsed(h: Hash, s: State)
    requires Inv(h, s)
    ensures s.temps.Keys <= s.used
  {
  }

  lemma StillUnused(h: Hash, s: State, a: Action, script: seq<seq<Action>>, tmp: TempName)
    requires Unused(s.used, script, tmp) && Enabled(s, a) && (a.CreateTemp? ==> a.tmp != tmp)
    ensures Unused(Apply(h, s, a).used, script, tmp)
  {
    hide NextCalls, NextLocks, NextCached, NextTemps, Enabled;
  }

  // ---------------------------------------------------------------- what each step of a call does

  /** s with call c moved to pc. */
  function MovedTo(s: State, c: CallId, pc: Pc): State
    requires c in s.calls
  {
    s.(calls := s.calls[c := s.calls[c].(pc := pc)])
  }

  predicate CanFail(pc: Pc) {
    pc.Waiting? || pc.Missed? || pc.Responded? || (pc.Writing? && !pc.stage.Closed?) || pc.Cleaning?
  }

  /** A failing flock ends the call; after the temp file is made it is cleaned up; a failing remove is ignored. */
  function AfterFailure(pc: Pc): Pc {
    if pc.Waiting? then Done(false)
    else if pc.Writing? then Cleaning(pc.tmp, false)
    else if pc.Cleaning? then Unlocking(pc.ok)
    else Unlocking(false)
  }

  lemma StartStep(h: Hash, s: State, c: CallId, path: Path, expected: Digest)
    requires c !in s.calls
    ensures Enabled(s, Start(c, path, expected))
    ensures Apply(h, s, Start(c, path, expected)) == s.(calls := s.calls[c := Call(path, expected, Waiting)])
  {
  }

  lemma FailsStep(h: Hash, s: State, c: CallId)
    requires c in s.calls && CanFail(s.calls[c].pc)
    ensures Enabled(s, Fails(c)) && Apply(h, s, Fails(c)) == MovedTo(s, c, AfterFailure(s.calls[c].pc))
  {
  }

  lemma AcquireStep(h: Hash, s: State, c: CallId)
    requires c in s.calls && s.calls[c].pc.Waiting? && s.calls[c].path !in s.locks
    ensures Enabled(s, Acquire(c))
    ensures Apply(h, s, Acquire(c)) == MovedTo(s, c, Checking).(locks := s.locks[s.calls[c].path := c])
  {
  }

  lemma CheckStep(h: Hash, s: State, c: CallId)
    requires c in s.calls && s.calls[c].pc.Checking?
    ensures var Call(path, expected, _) := s.calls[c];
      && Enabled(s, Check(c)) && (path in s.cached ==> Enabled(s, CheckReadFault(c)))
      && Apply(h, s, Check(c)) ==
        MovedTo(s, c, if path in s.cached && Accepts(h, expected, s.cached[path]) then Unlocking(true) else Missed)
      && (path in s.cached ==> Apply(h, s, CheckReadFault(c)) == MovedTo(s, c, Missed))
  {
  }

  lemma RespondStep(h: Hash, s: State, c: CallId, status: int, body: Bytes)
    requires c in s.calls && s.calls[c].pc.Missed?
    ensures Enabled(s, Respond(c, status, body))
    ensures Apply(h, s, Respond(c, status, body)) ==
      MovedTo(s, c, if status == 200 then Responded(body) else Unlocking(false))
  {
  }

  lemma CreateTempStep(h: Hash, s: State, c: CallId, tmp: TempName)
    requires c in s.calls && s.calls[c].pc.Responded? && tmp !in s.used
    ensures Enabled(s, CreateTemp(c, tmp))
    ensures Apply(h, s, CreateTemp(c, tmp)) ==
      MovedTo(s, c, Writing(Streaming, tmp, s.calls[c].pc.body, 0, [])).(
        temps := s.temps[tmp := []], used := s.used + {tmp})
  {
  }

  lemma ChunkStep(h: Hash, s: State, c: CallId, chunk: Bytes)
    requires c in s.calls && s.calls[c].pc.Writing? && s.calls[c].pc.stage.Streaming? && s.calls[c].pc.tmp in s.temps
    requires var pc := s.calls[c].pc;
      0 < |chunk| && pc.n + |chunk| <= |pc.body| && pc.body[pc.n .. pc.n + |chunk|] == chunk
    ensures var Call(path, expected, pc) := s.calls[c];
      && Enabled(s, Chunk(c, |chunk|))
      && Apply(h, s, Chunk(c, |chunk|)) ==
        MovedTo(s, c,
          pc.(n := pc.n + |chunk|, hashed := if expected != "" then pc.hashed + chunk else pc.hashed)).(
          temps := s.temps[pc.tmp := s.temps[pc.tmp] + chunk])
  {
  }

  lemma EofStep(h: Hash, s: State, c: CallId)
    requires c in s.calls && s.calls[c].pc.Writing?
    requires s.calls[c].pc.stage.Streaming? && s.calls[c].pc.n == |s.calls[c].pc.body|
    ensures Enabled(s, Eof(c)) && Apply(h, s, Eof(c)) == MovedTo(s, c, s.calls[c].pc.(stage := Copied))
  {
  }

  lemma CloseStep(h: Hash, s: State, c: CallId)
    requires c in s.calls && s.calls[c].pc.Writing? && s.calls[c].pc.stage.Copied?
    ensures Enabled(s, Close(c)) && Apply(h, s, Close(c)) == MovedTo(s, c, s.calls[c].pc.(stage := Closed))
  {
  }

  lemma VerifyStep(h: Hash, s: State, c: CallId)
    requires c in s.calls && s.calls[c].pc.Writing? && s.calls[c].pc.stage.Closed?
    ensures var Call(_, expected, pc) := s.calls[c];
      && Enabled(s, Verify(c))
      && Apply(h, s, Verify(c)) == MovedTo(s, c,
        if Accepts(h, expected, pc.hashed) then pc.(stage := Verified) else Cleaning(pc.tmp, false))
  {
  }

  lemma RenameStep(h: Hash, s: State, c: CallId)
    requires c in s.calls && s.calls[c].pc.Writing? && s.calls[c].pc.stage.Verified? && s.calls[c].pc.tmp in s.temps
    ensures var Call(path, _, pc) := s.calls[c];
      && Enabled(s, Rename(c))
      && Apply(h, s, Rename(c)) == MovedTo(s, c, Cleaning(pc.tmp, true)).(
        cached := s.cached[path := s.temps[pc.tmp]], temps := s.temps - {pc.tmp})
  {
  }

  lemma RemoveStep(h: Hash, s: State, c: CallId)
    requires c in s.calls && s.calls[c].pc.Cleaning?
    ensures Enabled(s, Remove(c))
    ensures Apply(h, s, Remove(c)) ==
      MovedTo(s, c, Unlocking(s.calls[c].pc.ok)).(temps := s.temps - {s.calls[c].pc.tmp})
  {
  }

  lemma UnlockStep(h: Hash, s: State, c: CallId)
    requires c in s.calls && s.calls[c].pc.Unlocking?
    ensures Enabled(s, Unlock(c))
    ensures Apply(h, s, Unlock(c)) ==
      MovedTo(s, c, Done(s.calls[c].pc.ok)).(locks := s.locks - {s.calls[c].path})
  {
  }

  class CacheDir {
    const h: Hash
    var cached: map<Path, Bytes>
    var temps: map<TempName, Bytes>
    var locked: set<Path>
    /** Where all calls stand. Only Others looks at it. */
    var state: State
    /** What the other calls try to do, one batch for each time they get to move. */
    var script: seq<seq<Action>>
    ghost const start: State
    ghost var acts: seq<Action>

    ghost predicate Valid()
      reads this
    {
      Recorded() && cached == state.cached && temps == state.temps && locked == state.locks.Keys
    }

    ghost predicate Recorded()
      reads this
    {
      Fresh(start) && Legal(h, start, acts) && Run(h, start, acts) == state && Inv(h, state)
    }

    constructor (h: Hash, cached: map<Path, Bytes>, temps: map<TempName, Bytes>, script: seq<seq<Action>>)
      ensures Valid() && acts == [] && this.h == h && state.calls == map[] && state.used == temps.Keys
      ensures this.cached == cached && this.temps == temps && locked == {} && this.script == script
    {
      this.h, this.script := h, script;
      this.cached, this.temps, this.locked := cached, temps, {};
      var s := State(map[], map[], cached, temps, temps.Keys);
      this.start, this.acts, this.state := s, [], s;
      FreshInv(h, s);
    }

    function File(path: Path): Option<Bytes>
      reads this
    {
      FileIn(cached, path)
    }

    /** Call c stands here. */
    ghost predicate At(c: CallId, call: Call)
      reads this
    {
      Valid() && c in state.calls && state.calls[c] == call
    }

    /** The run has gone on, and nobody else has moved when nobody else had anything to do. */
    ghost predicate Since(c: CallId, acts0: seq<Action>, calls0: map<CallId, Call>, script0: seq<seq<Action>>)
      reads this
    {
      acts0 <= acts && (script0 == [] ==> script == [] && state.calls - {c} == calls0 - {c})
    }

    /** The protocol takes one step. */
    method Log(a: Action)
      requires Recorded() && Enabled(state, a)
      modifies this`acts, this`state
      ensures Recorded() && acts == old(acts) + [a] && state == Apply(h, old(state), a)
      ensures state.calls - {a.c} == old(state.calls) - {a.c}
    {
      Extend(h, start, acts, a);
      StepKeepsInv(h, state, a);
      hide Legal, Run, Inv;
      acts := acts + [a];
      state := Apply(h, state, a);
    }

    /** A step of another call, with its effect on the directory. */
    method OtherActs(c: CallId, a: Action)
      requires Valid() && Enabled(state, a) && a.c != c
      modifies this`cached, this`temps, this`locked, this`state, this`acts
      ensures Valid() && old(acts) <= acts && LeftTo(c, old(state), state)
      ensures forall tmp :: old(Unused(state.used, script, tmp)) && (a.CreateTemp? ==> a.tmp != tmp) ==>
        Unused(state.used, script, tmp)
    {
      hide Legal, Run, Inv, LeftTo, Enabled, Apply, Unused;
      OtherStep(h, c, state, a);
      Extend(h, start, acts, a);
      ghost var s := state;
      acts := acts + [a];
      state := Apply(h, state, a);
      forall tmp | Unused(s.used, script, tmp) && (a.CreateTemp? ==> a.tmp != tmp)
        ensures Unused(state.used, script, tmp)
      {
        StillUnused(h, s, a, script, tmp);
      }
      cached, temps, locked := state.cached, state.temps, state.locks.Keys;
    }

    /** The other calls take those of their next steps that they can. */
    method Others(c: CallId)
      requires Valid()
      modifies this`cached, this`temps, this`locked, this`state, this`script, this`acts
      ensures Valid() && Since(c, old(acts), old(state.calls), old(script)) && LeftTo(c, old(state), state)
      ensures forall tmp :: old(Unused(state.used, script, tmp)) ==> Unused(state.used, script, tmp)
      ensures if old(script) == [] then state == old(state) else |script| < |old(script)|
    {
      hide Legal, Run, Inv, Enabled, Apply;
      if script == [] {
        return;
      }
      var batch := script[0];
      assert forall tmp :: Unused(state.used, script, tmp) ==> Unused(state.used, script[1..], tmp);
      script := script[1..];
      for i := 0 to |batch|
        invariant Valid() && old(acts) <= acts && script == old(script)[1..] && LeftTo(c, old(state), state)
        invariant forall tmp :: old(Unused(state.used, script, tmp)) ==> Unused(state.used, script, tmp)
      {
        var a := batch[i];
        ghost var before := state;
        if a.c != c && Enabled(state, a) {
          assert a in batch && batch in old(script);
          OtherActs(c, a);
          LeftToAll(c, old(state), before, state);
        }
      }
    }

    /** There is no such temp file, and no other call will make one. */
    ghost predicate Gone(tmp: TempName)
      reads this
    {
      Unused(state.used, script, tmp) || (tmp in state.used && tmp !in temps)
    }

    /** Between two effects of call c, which stands as given, the other calls move. */
    method Yield(c: CallId, ghost call: Call, ghost tmp: TempName)
      requires At(c, call)
      modifies this`cached, this`temps, this`locked, this`state, this`script, this`acts
      ensures At(c, call) && Since(c, old(acts), old(state.calls), old(script))
      ensures Inside(call.pc) ==> File(call.path) == old(File(call.path))
      ensures old(Unused(state.used, script, tmp)) ==> Unused(state.used, script, tmp)
      ensures old(Gone(tmp)) ==> Gone(tmp)
      ensures if old(script) == [] then state == old(state) && script == [] else |script| < |old(script)|
    {
      hide Legal, Run, Inv, Unused;
      Others(c);
    }

    // -------------------------------------------------------------- the steps of the code

    /** The deferred close and remove of the temp file. */
    method CleanUp(c: CallId, path: Path, expected: Digest, tmp: TempName, ok: bool, removeFails: bool)
      requires At(c, Call(path, expected, Cleaning(tmp, ok)))
      modifies this`cached, this`temps, this`locked, this`state, this`script, this`acts
      ensures At(c, Call(path, expected, Unlocking(ok)))
      ensures Since(c, old(acts), old(state.calls), old(script))
      ensures File(path) == old(File(path))
      ensures tmp in state.used && (!removeFails ==> tmp !in temps)
    {
      hide Legal, Run, Inv, Unused, Apply, Enabled;
      Yield(c, Call(path, expected, Cleaning(tmp, ok)), tmp);
      OwnTemp(h, state, c);
      if removeFails {
        FailsStep(h, state, c);
        Log(Fails(c));
      } else {
        RemoveStep(h, state, c);
        temps := temps - {tmp};
        Log(Remove(c));
      }
    }

    /** The foreign call the code has reached fails. */
    method GiveUp(c: CallId, path: Path, expected: Digest, ghost pc: Pc, ghost next: Pc,
        ghost tmp: TempName)
      requires At(c, Call(path, expected, pc)) && CanFail(pc) && next == AfterFailure(pc)
      modifies this`cached, this`temps, this`locked, this`state, this`script, this`acts
      ensures At(c, Call(path, expected, next)) && Since(c, old(acts), old(state.calls), old(script))
      ensures Inside(pc) ==> File(path) == old(File(path))
      ensures old(Unused(state.used, script, tmp)) ==> Unused(state.used, script, tmp)
    {
      hide Legal, Run, Inv, Unused, Apply, Enabled;
      Yield(c, Call(path, expected, pc), tmp);
      FailsStep(h, state, c);
      Log(Fails(c));
    }

    /** io.MultiWriter: one chunk goes to the temp file and, when a digest is expected, to the hasher. */
    method WriteChunk(c: CallId, path: Path, expected: Digest, tmp: TempName, hashed: Bytes, chunk: Bytes,
        ghost body: Bytes, ghost n: nat)
      returns (hashed': Bytes)
      requires At(c, Call(path, expected, Writing(Streaming, tmp, body, n, hashed)))
      requires n + |chunk| <= |body| && body[n .. n + |chunk|] == chunk
      modifies this`cached, this`temps, this`locked, this`state, this`script, this`acts
      ensures At(c, Call(path, expected, Writing(Streaming, tmp, body, n + |chunk|, hashed')))
      ensures Since(c, old(acts), old(state.calls), old(script))
      ensures File(path) == old(File(path))
      ensures hashed' == if expected != "" then hashed + chunk else hashed
    {
      hide Legal, Run, Inv, Unused, Apply, Enabled;
      Yield(c, Call(path, expected, Writing(Streaming, tmp, body, n, hashed)), tmp);
      OwnTemp(h, state, c);
      assert temps[tmp := temps[tmp]] == temps && (chunk == [] ==> temps[tmp] + chunk == temps[tmp]);
      temps := temps[tmp := temps[tmp] + chunk];
      hashed' := if expected != "" then hashed + chunk else hashed;
      if |chunk| > 0 {
        ChunkStep(h, state, c, chunk);
        Log(Chunk(c, |chunk|));
      } else {
        assert hashed + chunk == hashed;
      }
    }

    /** io.Copy: all chunks, or those before the first failing write. */
    method CopyChunks(c: CallId, path: Path, expected: Digest, tmp: TempName, chunks: seq<Bytes>,
        writeFailsAt: Option<nat>)
      returns (ok: bool, hashed: Bytes)
      requires At(c, Call(path, expected, Writing(Streaming, tmp, Concat(chunks), 0, [])))
      modifies this`cached, this`temps, this`locked, this`state, this`script, this`acts
      ensures At(c, Call(path, expected,
        if ok then Writing(Streaming, tmp, Concat(chunks), |Concat(chunks)|, hashed) else Cleaning(tmp, false)))
      ensures Since(c, old(acts), old(state.calls), old(script)) && File(path) == old(File(path))
      ensures ok <==> (writeFailsAt.Some? ==> |chunks| <= writeFailsAt.value)
      ensures ok ==> tmp in temps && temps[tmp] == Concat(chunks) && (expected != "" ==> hashed == Concat(chunks))
    {
      hide Legal, Run, Inv, Unused, Apply, Enabled, Concat;
      assert Concat(chunks[..0]) == [] by { NoChunks(chunks); }
      hashed := [];
      for i := 0 to |chunks|
        invariant At(c, Call(path, expected, Writing(Streaming, tmp, Concat(chunks), |Concat(chunks[..i])|, hashed)))
        invariant Since(c, old(acts), old(state.calls), old(script)) && File(path) == old(File(path))
        invariant writeFailsAt.Some? ==> i <= writeFailsAt.value
      {
        if writeFailsAt == Some(i) {
          GiveUpCopy(c, path, expected, tmp);
          return false, hashed;
        }
        ChunkInBody(chunks, i);
        hashed := WriteChunk(c, path, expected, tmp, hashed, chunks[i], Concat(chunks), |Concat(chunks[..i])|);
      }
      assert chunks[..|chunks|] == chunks;
      OwnTemp(h, state, c);
      return true, hashed;
    }

    /** A chunk cannot be written, or the body breaks off. */
    method GiveUpCopy(c: CallId, path: Path, expected: Digest, tmp: TempName)
      requires Valid() && c in state.calls && state.calls[c].pc.Writing? && state.calls[c].pc.stage.Streaming?
      requires state.calls[c].path == path && state.calls[c].expected == expected && state.calls[c].pc.tmp == tmp
      modifies this`cached, this`temps, this`locked, this`state, this`script, this`acts
      ensures At(c, Call(path, expected, Cleaning(tmp, false)))
      ensures Since(c, old(acts), old(state.calls), old(script))
      ensures File(path) == old(File(path))
    {
      hide Legal, Run, Inv, Unused, Apply, Enabled;
      GiveUp(c, path, expected, state.calls[c].pc, Cleaning(tmp, false), tmp);
    }

    /** io.Copy into the temp file, up to the end of the body. */
    method Copy(c: CallId, path: Path, expected: Digest, tmp: TempName, reply: Reply, disk: Disk)
      returns (ok: bool, hashed: Bytes)
      requires reply.Response?
      requires At(c, Call(path, expected, Writing(Streaming, tmp, Concat(reply.chunks), 0, [])))
      modifies this`cached, this`temps, this`locked, this`state, this`script, this`acts
      ensures At(c, Call(path, expected,
        if ok then Writing(Copied, tmp, Concat(reply.chunks), |Concat(reply.chunks)|, hashed)
        else Cleaning(tmp, false)))
      ensures Since(c, old(acts), old(state.calls), old(script)) && File(path) == old(File(path))
      ensures ok <==> !reply.broken && (disk.writeFailsAt.Some? ==> |reply.chunks| <= disk.writeFailsAt.value)
    {
      hide Legal, Run, Inv, Unused, Apply, Enabled, Concat;
      ok, hashed := CopyChunks(c, path, expected, tmp, reply.chunks, disk.writeFailsAt);
      if ok {
        if reply.broken {
          GiveUpCopy(c, path, expected, tmp);
          ok := false;
        } else {
          ghost var body := Concat(reply.chunks);
          Yield(c, Call(path, expected, Writing(Streaming, tmp, body, |body|, hashed)), tmp);
          EofStep(h, state, c);
          Log(Eof(c));
        }
      }
    }

    /** The server answers; anything but 200 ends the call. */
    method Answered(c: CallId, path: Path, expected: Digest, ghost tmp: TempName, status: int, body: Bytes)
      requires At(c, Call(path, expected, Missed)) && Unused(state.used, script, tmp)
      modifies this`cached, this`temps, this`locked, this`state, this`script, this`acts
      ensures At(c, Call(path, expected, if status == 200 then Responded(body) else Unlocking(false)))
      ensures Since(c, old(acts), old(state.calls), old(script))
      ensures File(path) == old(File(path)) && Unused(state.used, script, tmp)
    {
      hide Legal, Run, Inv, Unused, Apply, Enabled;
      Yield(c, Call(path, expected, Missed), tmp);
      RespondStep(h, state, c, status, body);
      Log(Respond(c, status, body));
    }

    /** The response is there; now the temp file. */
    method OpenTemp(c: CallId, path: Path, expected: Digest, tmp: TempName, ghost body: Bytes, createFails: bool)
      returns (ok: bool)
      requires At(c, Call(path, expected, Responded(body))) && Unused(state.used, script, tmp)
      modifies this`cached, this`temps, this`locked, this`state, this`script, this`acts
      ensures At(c, Call(path, expected, if ok then Writing(Streaming, tmp, body, 0, []) else Unlocking(false)))
      ensures Since(c, old(acts), old(state.calls), old(script)) && File(path) == old(File(path))
      ensures ok == !createFails && (!ok ==> Unused(state.used, script, tmp))
    {
      hide Legal, Run, Inv, Unused, Apply, Enabled;
      if createFails {
        GiveUp(c, path, expected, Responded(body), Unlocking(false), tmp);
        return false;
      }
      Yield(c, Call(path, expected, Responded(body)), tmp);
      UnusedIsFree(state.used, script, tmp);
      CreateTempStep(h, state, c, tmp);
      temps := temps[tmp := []];
      Log(CreateTemp(c, tmp));
      return true;
    }

    method Close(c: CallId, path: Path, expected: Digest, tmp: TempName, ghost body: Bytes, ghost hashed: Bytes,
        closeFails: bool)
      returns (ok: bool)
      requires At(c, Call(path, expected, Writing(Copied, tmp, body, |body|, hashed)))
      modifies this`cached, this`temps, this`locked, this`state, this`script, this`acts
      ensures At(c, Call(path, expected,
        if ok then Writing(Closed, tmp, body, |body|, hashed) else Cleaning(tmp, false)))
      ensures Since(c, old(acts), old(state.calls), old(script)) && File(path) == old(File(path)) && ok == !closeFails
    {
      hide Legal, Run, Inv, Unused, Apply, Enabled;
      Yield(c, Call(path, expected, Writing(Copied, tmp, body, |body|, hashed)), tmp);
      ok := !closeFails;
      if closeFails {
        FailsStep(h, state, c);
        Log(Fails(c));
      } else {
        CloseStep(h, state, c);
        Log(OvaCache.Action.Close(c));
      }
    }

    method Compare(c: CallId, path: Path, expected: Digest, tmp: TempName, ghost body: Bytes, hashed: Bytes)
      returns (ok: bool)
      requires At(c, Call(path, expected, Writing(Closed, tmp, body, |body|, hashed)))
      modifies this`cached, this`temps, this`locked, this`state, this`script, this`acts
      ensures At(c, Call(path, expected,
        if ok then Writing(Verified, tmp, body, |body|, hashed) else Cleaning(tmp, false)))
      ensures Since(c, old(acts), old(state.calls), old(script)) && File(path) == old(File(path))
      ensures ok <==> Accepts(h, expected, body)
    {
      hide Legal, Run, Inv, Unused, Apply, Enabled;
      Yield(c, Call(path, expected, Writing(Closed, tmp, body, |body|, hashed)), tmp);
      OwnTemp(h, state, c);
      ok := expected == "" || h(hashed) == expected;
      VerifyStep(h, state, c);
      Log(Verify(c));
    }

    method MoveIntoPlace(c: CallId, path: Path, expected: Digest, tmp: TempName, ghost body: Bytes, ghost hashed: Bytes)
      requires At(c, Call(path, expected, Writing(Verified, tmp, body, |body|, hashed)))
      modifies this`cached, this`temps, this`locked, this`state, this`script, this`acts
      ensures At(c, Call(path, expected, Cleaning(tmp, true)))
      ensures Since(c, old(acts), old(state.calls), old(script))
      ensures File(path) == Some(body)
    {
      hide Legal, Run, Inv, Unused, Apply, Enabled;
      Yield(c, Call(path, expected, Writing(Verified, tmp, body, |body|, hashed)), tmp);
      OwnTemp(h, state, c);
      RenameStep(h, state, c);
      cached, temps := cached[path := temps[tmp]], temps - {tmp};
      Log(Rename(c));
    }

    /** Compare digests, rename onto the cache path. */
    method Store(c: CallId, path: Path, expected: Digest, tmp: TempName, ghost body: Bytes, hashed: Bytes,
        renameFails: bool)
      returns (ok: bool)
      requires At(c, Call(path, expected, Writing(Closed, tmp, body, |body|, hashed)))
      modifies this`cached, this`temps, this`locked, this`state, this`script, this`acts
      ensures At(c, Call(path, expected, Cleaning(tmp, ok)))
      ensures Since(c, old(acts), old(state.calls), old(script))
      ensures ok <==> !renameFails && Accepts(h, expected, body)
      ensures File(path) == if ok then Some(body) else old(File(path))
    {
      hide Legal, Run, Inv, Unused, Apply, Enabled;
      ok := Compare(c, path, expected, tmp, body, hashed);
      if ok {
        if renameFails {
          GiveUp(c, path, expected, Writing(Verified, tmp, body, |body|, hashed), Cleaning(tmp, false), tmp);
          return false;
        }
        MoveIntoPlace(c, path, expected, tmp, body, hashed);
      }
    }

    /** Stream, close, verify, rename. */
    method Replace(c: CallId, path: Path, expected: Digest, reply: Reply, disk: Disk) returns (ok: bool)
      requires reply.Response?
      requires At(c, Call(path, expected, Writing(Streaming, disk.tmp, Concat(reply.chunks), 0, [])))
      modifies this`cached, this`temps, this`locked, this`state, this`script, this`acts
      ensures At(c, Call(path, expected, Cleaning(disk.tmp, ok)))
      ensures Since(c, old(acts), old(state.calls), old(script))
      ensures ok <==>
        && !reply.broken && (disk.writeFailsAt.Some? ==> |reply.chunks| <= disk.writeFailsAt.value)
        && !disk.closeFails && !disk.renameFails && Accepts(h, expected, Concat(reply.chunks))
      ensures File(path) == if ok then Some(Concat(reply.chunks)) else old(File(path))
    {
      hide Legal, Run, Inv, Unused, Apply, Enabled, Concat;
      var hashed;
      ok, hashed := Copy(c, path, expected, disk.tmp, reply, disk);
      if ok {
        ok := Close(c, path, expected, disk.tmp, Concat(reply.chunks), hashed, disk.closeFails);
        if ok {
          ok := Store(c, path, expected, disk.tmp, Concat(reply.chunks), hashed, disk.renameFails);
        }
      }
    }

    /** Everything after a cache miss. */
    method Fetch(c: CallId, path: Path, expected: Digest, reply: Reply, disk: Disk) returns (ok: bool)
      requires At(c, Call(path, expected, Missed)) && Unused(state.used, script, disk.tmp)
      modifies this`cached, this`temps, this`locked, this`state, this`script, this`acts
      ensures At(c, Call(path, expected, Unlocking(ok)))
      ensures Since(c, old(acts), old(state.calls), old(script))
      ensures ok <==>
        && reply.Response? && reply.status == 200 && !reply.broken
        && !disk.createFails && (disk.writeFailsAt.Some? ==> |reply.chunks| <= disk.writeFailsAt.value)
        && !disk.closeFails && !disk.renameFails
        && (expected == "" || h(Concat(reply.chunks)) == expected)
      ensures File(path) == if ok then Some(Concat(reply.chunks)) else old(File(path))
      ensures !disk.removeFails ==> Gone(disk.tmp)
    {
      hide Legal, Run, Inv, Unused, Apply, Enabled, Concat;
      if reply.NoResponse? {
        GiveUp(c, path, expected, Missed, Unlocking(false), disk.tmp);
        return false;
      }
      Answered(c, path, expected, disk.tmp, reply.status, Concat(reply.chunks));
      if reply.status != 200 {
        return false;
      }
      ok := OpenTemp(c, path, expected, disk.tmp, Concat(reply.chunks), disk.createFails);
      if ok {
        ok := Replace(c, path, expected, reply, disk);
        CleanUp(c, path, expected, disk.tmp, ok, disk.removeFails);
      }
    }

    lemma UnusedIsGone(tmp: TempName)
      requires Unused(state.used, script, tmp)
      ensures Gone(tmp)
    {
    }

    lemma GoneIsAbsent(tmp: TempName)
      requires Valid() && Gone(tmp)
      ensures tmp !in temps
    {
      hide Legal, Run;
    }

    method Arrive(c: CallId, path: Path, expected: Digest, ghost tmp: TempName)
      requires Valid() && c !in state.calls && Unused(state.used, script, tmp)
      modifies this`cached, this`temps, this`locked, this`state, this`script, this`acts
      ensures At(c, Call(path, expected, Waiting)) && Since(c, old(acts), old(state.calls), old(script))
      ensures Unused(state.used, script, tmp)
      ensures old(script) == [] ==> locked == old(locked) && cached == old(cached)
    {
      hide Legal, Run, Inv, Unused, Apply, Enabled;
      Others(c);
      StartStep(h, state, c, path, expected);
      Log(Start(c, path, expected));
    }

    /** flock blocks until it is granted. */
    method AwaitLock(c: CallId, path: Path, expected: Digest, ghost tmp: TempName) returns (granted: bool)
      requires At(c, Call(path, expected, Waiting)) && Unused(state.used, script, tmp)
      modifies this`cached, this`temps, this`locked, this`state, this`script, this`acts
      ensures At(c, Call(path, expected, if granted then Checking else Waiting))
      ensures Since(c, old(acts), old(state.calls), old(script)) && Unused(state.used, script, tmp)
      ensures granted ==> old(acts) < acts && acts[|acts| - 1] == Acquire(c)
      ensures !granted ==> script == [] && path in locked
      ensures old(script) == [] ==> granted == (path !in old(locked)) && cached == old(cached)
    {
      hide Legal, Run, Inv, Unused, Apply, Enabled;
      Yield(c, Call(path, expected, Waiting), tmp);
      while path in locked
        invariant At(c, Call(path, expected, Waiting)) && Since(c, old(acts), old(state.calls), old(script))
        invariant Unused(state.used, script, tmp)
        invariant old(script) == [] ==> locked == old(locked) && cached == old(cached)
        decreases |script|
      {
        if script == [] {
          return false;
        }
        Yield(c, Call(path, expected, Waiting), tmp);
      }
      locked := locked + {path};
      AcquireStep(h, state, c);
      Log(Acquire(c));
      return true;
    }

    /** flock is granted at some time, or fails. */
    method Lock(c: CallId, path: Path, expected: Digest, flockFails: bool, ghost tmp: TempName) returns (g: Grant)
      requires Valid() && c !in state.calls && Unused(state.used, script, tmp)
      modifies this`cached, this`temps, this`locked, this`state, this`script, this`acts
      ensures At(c, Call(path, expected, if g.Granted? then Checking else if g.Refused? then Done(false) else Waiting))
      ensures Since(c, old(acts), old(state.calls), old(script)) && Unused(state.used, script, tmp)
      ensures g.Refused? <==> flockFails
      ensures g.Granted? ==> old(acts) < acts && acts[|acts| - 1] == Acquire(c)
      ensures g.NeverGranted? ==> script == [] && path in locked
      ensures old(script) == [] && !flockFails ==> g.Granted? == (path !in old(locked)) && cached == old(cached)
    {
      hide Legal, Run, Inv, Unused, Apply, Enabled;
      Arrive(c, path, expected, tmp);
      if flockFails {
        GiveUp(c, path, expected, Waiting, Done(false), tmp);
        return Refused;
      }
      var granted := AwaitLock(c, path, expected, tmp);
      return if granted then Granted else NeverGranted;
    }

    method CheckCache(c: CallId, path: Path, expected: Digest, readFails: bool, ghost tmp: TempName)
      returns (hit: bool)
      requires At(c, Call(path, expected, Checking)) && Unused(state.used, script, tmp)
      modifies this`cached, this`temps, this`locked, this`state, this`script, this`acts
      ensures At(c, Call(path, expected, if hit then Unlocking(true) else Missed))
      ensures Since(c, old(acts), old(state.calls), old(script))
      ensures File(path) == old(File(path)) && Unused(state.used, script, tmp)
      ensures hit <==> File(path).Some? && !readFails && Accepts(h, expected, File(path).value)
    {
      hide Legal, Run, Inv, Unused, Apply, Enabled;
      Yield(c, Call(path, expected, Checking), tmp);
      hit := path in cached && !readFails && (expected == "" || h(cached[path]) == expected);
      CheckStep(h, state, c);
      if path in cached && readFails {
        Log(CheckReadFault(c));
      } else {
        Log(Check(c));
      }
    }

    method Release(c: CallId, path: Path, expected: Digest, ok: bool, ghost tmp: TempName)
      requires At(c, Call(path, expected, Unlocking(ok)))
      modifies this`cached, this`temps, this`locked, this`state, this`script, this`acts
      ensures At(c, Call(path, expected, Done(ok)))
      ensures Since(c, old(acts), old(state.calls), old(script))
      ensures File(path) == old(File(path)) && path !in locked
      ensures old(Gone(tmp)) ==> Gone(tmp)
    {
      hide Legal, Run, Inv, Unused, Apply, Enabled;
      Yield(c, Call(path, expected, Unlocking(ok)), tmp);
      UnlockStep(h, state, c);
      locked := locked - {path};
      Log(Unlock(c));
    }

    /** From the moment the lock is granted. */
    method Locked(c: CallId, path: Path, expected: Digest, reply: Reply, disk: Disk) returns (ok: bool)
      requires At(c, Call(path, expected, Checking)) && Unused(state.used, script, disk.tmp)
      modifies this`cached, this`temps, this`locked, this`state, this`script, this`acts
      ensures At(c, Call(path, expected, Done(ok)))
      ensures Since(c, old(acts), old(state.calls), old(script))
      ensures var found := old(File(path));
        var hit := found.Some? && !disk.readFails && (expected == "" || h(found.value) == expected);
        && (hit ==> ok && File(path) == found)
        && (!hit ==> (ok <==>
            && reply.Response? && reply.status == 200 && !reply.broken
            && !disk.createFails && (disk.writeFailsAt.Some? ==> |reply.chunks| <= disk.writeFailsAt.value)
            && !disk.closeFails && !disk.renameFails
            && (expected == "" || h(Concat(reply.chunks)) == expected)))
        && (!hit ==> File(path) == if ok then Some(Concat(reply.chunks)) else found)
      ensures path !in locked && (!disk.removeFails ==> disk.tmp !in temps)
    {
      hide Legal, Run, Inv, Unused, Apply, Enabled, Concat, Gone;
      UnusedIsGone(disk.tmp);
      ok := CheckCache(c, path, expected, disk.readFails, disk.tmp);
      if !ok {
        ok := Fetch(c, path, expected, reply, disk);
      } else {
        UnusedIsGone(disk.tmp);
      }
      Release(c, path, expected, ok, disk.tmp);
      if !disk.removeFails { GoneIsAbsent(disk.tmp); }
    }

    /**
     The whole call, with any steps of other calls before each of its own. granted is
     the run up to the moment it got the lock; the file it found then decides.
     */
    method DownloadOVAToDir(c: CallId, path: Path, expected: Digest, reply: Reply, disk: Disk)
      returns (r: Outcome, ghost granted: seq<Action>)
      requires Valid() && c !in state.calls && Unused(state.used, script, disk.tmp)
      modifies this`cached, this`temps, this`locked, this`state, this`script, this`acts
      ensures At(c, Call(path, expected, if r.Blocked? then Waiting else Done(r.ok)))
      ensures Since(c, old(acts), old(state.calls), old(script))
      ensures r.Blocked? ==> !disk.flockFails && script == [] && path in locked
      ensures r.Returned? && disk.flockFails ==> !r.ok
      ensures r.Returned? && !disk.flockFails ==>
        && old(acts) < granted <= acts && granted[|granted| - 1] == Acquire(c) && Legal(h, start, granted)
        && var found := FileIn(Run(h, start, granted).cached, path);
        && var hit := found.Some? && !disk.readFails && (expected == "" || h(found.value) == expected);
        && (hit ==> r.ok && File(path) == found)
        && (!hit ==> (r.ok <==>
            && reply.Response? && reply.status == 200 && !reply.broken
            && !disk.createFails && (disk.writeFailsAt.Some? ==> |reply.chunks| <= disk.writeFailsAt.value)
            && !disk.closeFails && !disk.renameFails
            && (expected == "" || h(Concat(reply.chunks)) == expected)))
        && (!hit ==> File(path) == if r.ok then Some(Concat(reply.chunks)) else found)
        && path !in locked
      ensures r.Returned? && r.ok ==> File(path).Some? && (expected == "" || h(File(path).value) == expected)
      ensures !disk.removeFails ==> disk.tmp !in temps
      ensures old(script) == [] && !disk.flockFails ==>
        && r.Returned? == (path !in old(locked))
        && (r.Returned? ==> FileIn(Run(h, start, granted).cached, path) == old(File(path)))
    {
      hide Legal, Run, Inv, Unused, Apply, Enabled, Concat;
      var g := Lock(c, path, expected, disk.flockFails, disk.tmp);
      granted := acts;
      if !g.Granted? {
        UnusedIsGone(disk.tmp);
        GoneIsAbsent(disk.tmp);
        return if g.Refused? then Returned(false) else Blocked, granted;
      }
      var ok := Locked(c, path, expected, reply, disk);
      return Returned(ok), granted;
    }
  }

  /** What a call knows about its temp file. */
  lemma OwnTemp(h: Hash, s: State, c: CallId)
    requires Inv(h, s) && OwnsTemp(s, c)
    ensures var Call(_, expected, pc) := s.calls[c];
      && pc.tmp in s.used
      && (pc.Writing? ==>
            && pc.n <= |pc.body| && pc.tmp in s.temps && s.temps[pc.tmp] == pc.body[..pc.n]
            && (expected != "" ==> pc.hashed == pc.body[..pc.n])
            && (pc.n == |pc.body| ==> pc.body[..pc.n] == pc.body))
  {
    assert CallOk(h, s, c);
  }

  /**
   Agreement on the digest is needed: two calls for one path that expect different
   digests both succeed, and the first caller's success is no longer true.
   */
  method DifferentDigestsOverwrite(h: Hash, p: Path, b0: Bytes, b1: Bytes) returns (dir: CacheDir)
    requires h(b0) != "" && h(b1) != "" && h(b0) != h(b1)
    ensures fresh(dir) && dir.Valid() && dir.h == h
    ensures dir.state.calls == map[0 := Call(p, h(b0), Done(true)), 1 := Call(p, h(b1), Done(true))]
    ensures p in dir.cached && !Accepts(h, h(b0), dir.cached[p])
  {
    dir := OneAfterTheOther(h, p, b0, h(b0), b1, h(b1), false);
  }

  /**
   A caller without a digest is enough when the file that is there cannot be looked at:
   it downloads its own, and the earlier caller's success is no longer true.
   */
  method NoDigestOverwrites(h: Hash, p: Path, b0: Bytes, b1: Bytes) returns (dir: CacheDir)
    requires h(b0) != "" && h(b0) != h(b1)
    ensures fresh(dir) && dir.Valid() && dir.h == h
    ensures dir.state.calls == map[0 := Call(p, h(b0), Done(true)), 1 := Call(p, "", Done(true))]
    ensures p in dir.cached && !Accepts(h, h(b0), dir.cached[p])
  {
    dir := OneAfterTheOther(h, p, b0, h(b0), b1, "", true);
  }

  /** A name that no temp file has had. */
  method FreshName(used: set<TempName>) returns (tmp: TempName)
    ensures tmp !in used
  {
    tmp := 0;
    var left := used;
    while left != {}
      invariant left <= used && forall u :: u in used && u !in left ==> u < tmp
    {
      var u :| u in left;
      left := left - {u};
      tmp := if u < tmp then tmp else u + 1;
    }
  }

  /** Two calls in turn, each served a file it accepts; the second cannot use, or cannot read, the first one's. */
  method OneAfterTheOther(h: Hash, p: Path, b0: Bytes, e0: Digest, b1: Bytes, e1: Digest, readFails: bool)
      returns (dir: CacheDir)
    requires Accepts(h, e0, b0) && Accepts(h, e1, b1) && (readFails || !Accepts(h, e1, b0))
    ensures fresh(dir) && dir.Valid() && dir.h == h
    ensures dir.state.calls == map[0 := Call(p, e0, Done(true)), 1 := Call(p, e1, Done(true))]
    ensures p in dir.cached && dir.cached[p] == b1
  {
    hide Legal, Run, Inv;
    dir := new CacheDir(h, map[], map[], []);
    var reply0, disk0 := Response(200, [b0], false), Disk(0, false, false, false, None, false, false, false);
    var reply1 := Response(200, [b1], false);
    ConcatOne(b0);
    ConcatOne(b1);
    assert Unused(dir.state.used, dir.script, 0);
    hide Concat;
    var r0, run0 := dir.DownloadOVAToDir(0, p, e0, reply0, disk0);
    OnlyCall(dir.state.calls, 0);
    var tmp := FreshName(dir.state.used);
    var disk1 := Disk(tmp, false, readFails, false, None, false, false, false);
    assert Unused(dir.state.used, dir.script, tmp);
    hide Unused;
    var r1, run1 := dir.DownloadOVAToDir(1, p, e1, reply1, disk1);
    assert dir.state.calls == (dir.state.calls - {1})[1 := dir.state.calls[1]];
  }

  lemma OnlyCall(calls: map<CallId, Call>, c: CallId)
    requires c in calls && calls - {c} == map[]
    ensures calls == map[c := calls[c]]
  {
    assert calls == (calls - {c})[c := calls[c]];
  }

  lemma {:induction false} PrefixConcat(chunks: seq<Bytes>, i: nat)
    requires i <= |chunks|
    ensures Concat(chunks[..i]) <= Concat(chunks)
    decreases |chunks| - i
  {
    if i < |chunks| {
      assert chunks[..i + 1][..i] == chunks[..i];
      PrefixConcat(chunks, i + 1);
    } else {
      assert chunks[..i] == chunks;
    }
  }

  lemma NoChunks(chunks: seq<Bytes>)
    ensures Concat(chunks[..0]) == []
  {
  }

  lemma ConcatOne(b: Bytes)
    ensures Concat([b]) == b
  {
    assert [b][..0] == [];
  }

  lemma ChunkInBody(chunks: seq<Bytes>, i: nat)
    requires i < |chunks|
    ensures var n := |Concat(chunks[..i])|;
      && Concat(chunks[..i + 1]) == Concat(chunks[..i]) + chunks[i]
      && n + |chunks[i]| <= |Concat(chunks)| && Concat(chunks)[n .. n + |chunks[i]|] == chunks[i]
  {
    assert chunks[..i + 1][..i] == chunks[..i];
    PrefixConcat(chunks, i + 1);
  }
}
