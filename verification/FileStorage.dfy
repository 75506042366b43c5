/** FileStorage as the program it is: each method makes its system calls one by one, with anybody else's
    steps between any two of them, and is proved to be one call of the protocol. */
module FileStorages {
  import opened Common
  import opened Conditions
  import opened MockStorages
  import opened FileStores
  import opened FileStoreRefinement
  import opened FileStoreTheorems

  /** By tick: the steps others take before it, whether the system call at it fails, how much it moves. */
  datatype Oracle = Oracle(others: nat -> seq<Step>, fails: nat -> bool, chunk: nat -> nat)

  ghost predicate OthersOnly(o: Oracle, id: nat) {
    forall t: nat, k: nat :: k < |o.others(t)| ==> o.others(t)[k].id != id
  }

  /** Where a call goes once it knows the stored object. */
  function Verdict(req: Request, staged: Option<Inode>, current: Option<Object>): Phase {
    var etag := if current.Some? then Some(current.value.etag) else None;
    match req
    case GetReq(_, conds) =>
      if current.None? then Leaving(Failed(NotFound))
      else if ApplyConditionalGet(current.value.etag, conds).Some? then
        Leaving(Failed(ApplyConditionalGet(current.value.etag, conds).value))
      else Leaving(Found(current.value))
    case HeadReq(_) => if current.None? then Leaving(Failed(NotFound)) else Leaving(Tagged(current.value.etag))
    case PutReq(_, _, conds) =>
      if ApplyConditionalPut(etag, conds).Some? then Leaving(Failed(ApplyConditionalPut(etag, conds).value))
      else Cleared(staged)
    case DeleteReq(_, conds) =>
      if ApplyConditionalDelete(etag, conds).Some? then Leaving(Failed(ApplyConditionalDelete(etag, conds).value))
      else if current.None? then Leaving(Failed(NotFound))
      else Cleared(staged)
  }

  lemma DecideIsVerdict(s: System, id: nat, staged: Option<Inode>, current: Option<Object>)
    requires id in s.calls
    ensures var s' := Decide(s, id, staged, current);
            id in s'.calls && s'.calls[id].req == s.calls[id].req
            && s'.calls[id].phase == Verdict(s.calls[id].req, staged, current)
  {
  }

  /** Nothing others do moves call `id` or changes the file it is reading. */
  ghost predicate Untouched(s: System, s': System, id: nat) {
    && Lookup(s'.calls, id) == Lookup(s.calls, id)
    && (id in s.calls && s.calls[id].phase.Reading? && s.calls[id].phase.source < |s.disk| ==>
          s.calls[id].phase.source < |s'.disk| && s'.disk[s.calls[id].phase.source] == s.disk[s.calls[id].phase.source])
  }

  lemma StepLeavesUntouched(s: System, s': System, other: nat, id: nat)
    requires Inv(s) && Guarantee(s, s', other) && other != id
    ensures Untouched(s, s', id)
  {
    if id in s.calls && s.calls[id].phase.Reading? {
      assert CallOK(s, id, s.calls[id]);
      NamedStable(s, s', other, s.calls[id].req.uri);
    }
  }

  lemma {:induction false} OthersLeaveUntouched(s: System, steps: seq<Step>, id: nat)
    requires Inv(s) && forall k :: 0 <= k < |steps| ==> steps[k].id != id
    ensures Inv(Run(s, steps)) && Untouched(s, Run(s, steps), id)
    decreases |steps|
  {
    hide Next, Inv, Guarantee;
    if steps != [] {
      var mid, step := Run(s, steps[..|steps| - 1]), steps[|steps| - 1];
      OthersLeaveUntouched(s, steps[..|steps| - 1], id);
      StepRefines(mid, step);
      StepLeavesUntouched(mid, Next(mid, step), step.id, id);
    }
  }

  lemma RunOfNone(s: System, steps: seq<Step>)
    ensures Run(s, steps[..0]) == s
  {
  }

  lemma RunOneMore(s: System, steps: seq<Step>, k: nat)
    requires k < |steps|
    ensures Run(s, steps[..k + 1]) == Next(Run(s, steps[..k]), steps[k])
  {
    assert steps[..k + 1][..k] == steps[..k];
  }

  lemma StagedFileThere(s: System, id: nat)
    requires Inv(s) && id in s.calls && s.calls[id].phase.Staging?
    ensures s.calls[id].phase.file < |s.disk|
  {
    assert CallOK(s, id, s.calls[id]);
  }

  lemma NamedFileThere(s: System, uri: string)
    requires Inv(s) && uri in s.names
    ensures s.names[uri] < |s.disk|
  {
  }

  lemma RemovableIsThere(s: System, id: nat)
    requires Inv(s) && id in s.calls && s.calls[id].phase.Cleared? && s.calls[id].req.DeleteReq?
    ensures s.calls[id].req.uri in s.names
  {
    assert CallOK(s, id, s.calls[id]);
  }

  /** Some system call failed in this period. */
  ghost predicate Broke(o: Oracle, from: nat, to: nat) {
    exists t: nat :: from < t <= to && o.fails(t)
  }

  /** An inconclusive answer has its reason: a system call that failed, or all patience spent. */
  ghost predicate Explained(o: Oracle, from: nat, to: nat, patience: nat, answer: Answer) {
    && (answer == Failed(IO) ==> Broke(o, from, to))
    && (answer == Failed(Cancelled) ==> from + patience < to)
  }

  /** Somebody holds a lock on the path that the request's own lock would clash with. */
  ghost predicate Taken(s: System, req: Request) {
    exists j :: j in s.grants && s.grants[j].uri == req.uri && (s.grants[j].exclusive || Writes(req))
  }

  lemma PollFails(s: System, id: nat)
    requires id in s.calls && s.calls[id].phase.Waiting? && !Advance(s, id).calls[id].phase.Holding?
    ensures Taken(s, s.calls[id].req)
  {
    var req := s.calls[id].req;
    assert !Available(s.grants, req.uri, Writes(req));
    var j :| j in s.grants && s.grants[j].uri == req.uri && !(!Writes(req) && !s.grants[j].exclusive);
  }

  /** At each of these points of the trace, later and later ones, the path was taken. */
  ghost predicate TakenAt(start: System, trace: seq<Step>, from: nat, busy: seq<nat>, req: Request) {
    && (forall i :: 0 <= i < |busy| ==> from <= busy[i] < |trace| && Taken(Run(start, trace[..busy[i]]), req))
    && (forall i, j :: 0 <= i < j < |busy| ==> busy[i] < busy[j])
  }

  lemma TakenStays(start: System, trace: seq<Step>, trace': seq<Step>, from: nat, busy: seq<nat>, req: Request)
    requires TakenAt(start, trace, from, busy, req) && trace <= trace'
    ensures TakenAt(start, trace', from, busy, req)
  {
    hide Run, Taken;
    forall i | 0 <= i < |busy| ensures trace'[..busy[i]] == trace[..busy[i]] {
    }
  }

  lemma NoPolls(start: System, trace: seq<Step>, from: nat, req: Request)
    ensures TakenAt(start, trace, from, [], req)
  {
  }

  lemma PollsBefore(start: System, trace: seq<Step>, from: nat, busy: seq<nat>, req: Request)
    requires TakenAt(start, trace, from, busy, req)
    ensures forall i :: 0 <= i < |busy| ==> busy[i] < |trace|
  {
  }

  lemma OneMorePoll(start: System, trace: seq<Step>, from: nat, busy: seq<nat>, req: Request, n: nat)
    requires TakenAt(start, trace, from, busy, req) && from <= n < |trace| && Taken(Run(start, trace[..n]), req)
    requires forall i :: 0 <= i < |busy| ==> busy[i] < n
    ensures TakenAt(start, trace, from, busy + [n], req)
  {
    hide Run, Taken;
  }

  class FileStorage {
    const start: System
    var sys: System
    var tick: nat
    ghost var trace: seq<Step>

    /** The directory, the files and the locks are what some interleaving made of them. */
    ghost predicate Valid()
      reads this
    {
      Fresh(start) && sys == Run(start, trace)
    }

    ghost predicate At(id: nat, req: Request, phase: Phase)
      reads this
    {
      id in sys.calls && sys.calls[id].req == req && sys.calls[id].phase == phase
    }

    /** The lock was asked for before every wait the caller had patience for, and was taken every time. */
    ghost predicate Starved(from: nat, req: Request, patience: nat)
      reads this
    {
      exists busy :: |busy| == patience + 1 && TakenAt(start, trace, from, busy, req)
    }

    constructor (names: map<string, Inode>, disk: seq<Data>)
      requires forall uri :: uri in names ==> names[uri] < |disk|
      ensures Valid() && sys == System(names, disk, map[], map[], [])
    {
      start := System(names, disk, map[], map[], []);
      sys := System(names, disk, map[], map[], []);
      tick := 0;
      trace := [];
    }

    method Do(step: Step)
      requires Valid()
      modifies this`sys, this`trace
      ensures Valid() && sys == Next(old(sys), step) && trace == old(trace) + [step]
    {
      hide Next;
      sys := Next(sys, step);
      trace := trace + [step];
      assert trace[..|trace| - 1] == old(trace);
    }

    /** Time passes, and with it whatever the others do. */
    method Pass(id: nat, o: Oracle)
      requires Valid() && OthersOnly(o, id)
      modifies this
      ensures old(trace) <= trace && Valid() && Inv(sys) && Untouched(old(sys), sys, id) && tick == old(tick) + 1
    {
      ghost var was := sys;
      RunRefines(start, trace);
      hide Next, Inv, Run;
      var steps := o.others(tick);
      OthersLeaveUntouched(sys, steps, id);
      RunOfNone(was, steps);
      for k := 0 to |steps|
        invariant Valid() && old(trace) <= trace && sys == Run(was, steps[..k]) && tick == old(tick)
      {
        RunOneMore(was, steps, k);
        Do(steps[k]);
      }
      assert steps[..|steps|] == steps;
      tick := tick + 1;
    }

    /** One failed attempt. */
    method FailNow(id: nat, code: Code)
      requires Valid() && Inconclusive(Failed(code)) && id in sys.calls
      modifies this`sys, this`trace
      ensures old(trace) <= trace && Valid() && sys == Stumble(old(sys), id, code)
    {
      Do(Move(id, Fail(code)));
    }

    /** One attempt to take the lock. */
    method TryLock(id: nat, req: Request, staged: Option<Inode>) returns (ok: bool)
      requires Valid() && At(id, req, Waiting(staged))
      modifies this`sys, this`trace
      ensures Valid() && trace == old(trace) + [Move(id, Proceed)]
      ensures At(id, req, if ok then Holding(staged) else Waiting(staged))
      ensures !ok ==> Taken(old(sys), req)
    {
      hide Run, Decide, Publish, Taken;
      if Advance(sys, id).calls[id].phase.Waiting? {
        PollFails(sys, id);
      }
      Do(Move(id, Proceed));
      return id in sys.grants && sys.calls[id].phase.Holding?;
    }

    /** Poll for the lock until it is free, an error, or the end of the caller's patience, at the latest while
        waiting for the `patience` + 1st time. */
    method Lock(id: nat, req: Request, staged: Option<Inode>, o: Oracle, patience: nat) returns (err: Option<Code>)
      requires Valid() && OthersOnly(o, id) && At(id, req, Waiting(staged))
      modifies this
      ensures old(trace) <= trace && old(tick) <= tick && Valid()
      ensures At(id, req, if err.None? then Holding(staged) else Returned(Failed(err.value)))
      ensures err.Some? ==>
                Inconclusive(Failed(err.value)) && Explained(o, old(tick), tick, patience, Failed(err.value))
      ensures err == Some(Cancelled) ==> Starved(old(|trace|), req, patience)
    {
      hide Inv, Run, Next, Taken, TakenAt;
      var polls := 0;
      ghost var busy: seq<nat> := [];
      NoPolls(start, trace, old(|trace|), req);
      while polls <= patience
        invariant Valid() && old(trace) <= trace && old(tick) + polls <= tick && At(id, req, Waiting(staged))
        invariant |busy| == polls <= patience + 1 && TakenAt(start, trace, old(|trace|), busy, req)
        decreases patience + 1 - polls
      {
        ghost var was := trace;
        Pass(id, o);
        if o.fails(tick) {
          FailNow(id, IO);
          return Some(IO);
        }
        ghost var n := |trace|;
        var ok := TryLock(id, req, staged);
        if ok {
          return None;
        }
        TakenStays(start, was, trace, old(|trace|), busy, req);
        assert trace[..n] + [Move(id, Proceed)] == trace;
        PollsBefore(start, was, old(|trace|), busy, req);
        OneMorePoll(start, trace, old(|trace|), busy, req, n);
        busy := busy + [n];
        polls := polls + 1;
      }
      ghost var was := trace;
      FailNow(id, Cancelled);
      TakenStays(start, was, trace, old(|trace|), busy, req);
      assert Starved(old(|trace|), req, patience) by {
        assert |busy| == patience + 1 && TakenAt(start, trace, old(|trace|), busy, req);
      }
      return Some(Cancelled);
    }

    /** Read the open file to its end. */
    method ReadAll(id: nat, req: Request, staged: Option<Inode>, source: Inode, o: Oracle) returns (r: Result<Data>)
      requires Valid() && OthersOnly(o, id) && At(id, req, Reading(staged, source, "")) && source < |sys.disk|
      modifies this
      ensures old(trace) <= trace && old(tick) <= tick && Valid()
      ensures At(id, req, if r.Ok? then Reading(staged, source, r.value) else Leaving(Failed(r.error.code)))
      ensures r.Ok? ==> source < |sys.disk| && |r.value| == |sys.disk[source]|
      ensures r.Err? ==> r.error.code == IO && Broke(o, old(tick), tick)
    {
      hide Decide, Inv, Run;
      var got := "";
      while |got| < |sys.disk[source]|
        invariant Valid() && old(trace) <= trace && old(tick) <= tick && At(id, req, Reading(staged, source, got))
        invariant source < |sys.disk| && |got| <= |sys.disk[source]|
        decreases |sys.disk[source]| - |got|
      {
        Pass(id, o);
        if o.fails(tick) {
          FailNow(id, IO);
          return Err(Error(IO, true));
        }
        var n := Min(Max(1, o.chunk(tick)), |sys.disk[source]| - |got|);
        var chunk := sys.disk[source][|got|..|got| + n];
        Do(Move(id, Chunk(n)));
        got := got + chunk;
      }
      return Ok(got);
    }

    /** The end of the file is reached, and the request decided. */
    method Judge(id: nat, req: Request, staged: Option<Inode>, source: Inode, data: Data)
      requires Valid() && At(id, req, Reading(staged, source, data))
      requires source < |sys.disk| && |data| == |sys.disk[source]|
      modifies this`sys, this`trace
      ensures trace == old(trace) + [Move(id, Proceed)] && Valid()
      ensures At(id, req, Verdict(req, staged, Some(Stored(data))))
    {
      hide Inv, Run, Verdict, Publish, Decide;
      DecideIsVerdict(sys, id, staged, Some(Stored(data)));
      Do(Move(id, Proceed));
    }

    /** Open the file and read it to the end; None: there is none. */
    method ReadSnapshot(id: nat, req: Request, staged: Option<Inode>, o: Oracle) returns (r: Result<Option<Object>>)
      requires Valid() && OthersOnly(o, id) && At(id, req, Holding(staged))
      modifies this
      ensures old(trace) <= trace && old(tick) <= tick && Valid()
      ensures At(id, req, if r.Ok? then Verdict(req, staged, r.value) else Leaving(Failed(r.error.code)))
      ensures r.Err? ==> r.error.code == IO && Broke(o, old(tick), tick)
    {
      hide Inv, Run;
      Pass(id, o);
      if o.fails(tick) {
        FailNow(id, IO);
        return Err(Error(IO, true));
      }
      hide Verdict, Publish;
      if req.uri !in sys.names {
        DecideIsVerdict(sys, id, staged, None);
        hide Decide;
        Do(Move(id, Proceed));
        return Ok(None);
      }
      hide Decide;
      NamedFileThere(sys, req.uri);
      var source := sys.names[req.uri];
      Do(Move(id, Proceed));
      var content := ReadAll(id, req, staged, source, o);
      if content.Err? {
        return Err(content.error);
      }
      Judge(id, req, staged, source, content.value);
      return Ok(Some(Stored(content.value)));
    }

    method Unlock(id: nat, req: Request, answer: Answer, o: Oracle)
      requires Valid() && OthersOnly(o, id) && At(id, req, Leaving(answer))
      modifies this
      ensures old(trace) <= trace && old(tick) <= tick && Valid()
      ensures At(id, req, Returned(answer))
    {
      Pass(id, o);
      Do(Move(id, Proceed));
    }

    /** A read or a delete begins. */
    method Arrive(id: nat, req: Request)
      requires Valid() && id !in sys.calls && !req.PutReq?
      modifies this`sys, this`trace
      ensures old(trace) <= trace && Valid() && At(id, req, Waiting(None))
    {
      hide Run;
      Do(Start(id, req, true));
    }

    method Get(id: nat, uri: string, conds: Conditions, o: Oracle, patience: nat) returns (answer: Answer)
      requires Valid() && OthersOnly(o, id) && id !in sys.calls
      modifies this
      ensures old(trace) <= trace && old(tick) <= tick && Valid()
      ensures At(id, GetReq(uri, conds), Returned(answer)) && Explained(o, old(tick), tick, patience, answer)
      ensures answer == Failed(Cancelled) ==> Starved(old(|trace|), GetReq(uri, conds), patience)
    {
      hide Inv, Run, Next;
      var req := GetReq(uri, conds);
      Arrive(id, req);
      var err := Lock(id, req, None, o, patience);
      if err.Some? {
        return Failed(err.value);
      }
      var snapshot := ReadSnapshot(id, req, None, o);
      if snapshot.Err? {
        answer := Failed(snapshot.error.code);
      } else if snapshot.value.None? {
        answer := Failed(NotFound);
      } else {
        var refused := ApplyConditionalGet(snapshot.value.value.etag, conds);
        answer := if refused.Some? then Failed(refused.value) else Found(snapshot.value.value);
      }
      assert Explained(o, old(tick), tick, patience, answer);
      Unlock(id, req, answer, o);
    }

    method Head(id: nat, uri: string, o: Oracle, patience: nat) returns (answer: Answer)
      requires Valid() && OthersOnly(o, id) && id !in sys.calls
      modifies this
      ensures old(trace) <= trace && old(tick) <= tick && Valid()
      ensures At(id, HeadReq(uri), Returned(answer)) && Explained(o, old(tick), tick, patience, answer)
      ensures answer == Failed(Cancelled) ==> Starved(old(|trace|), HeadReq(uri), patience)
    {
      hide Inv, Run, Next;
      var req := HeadReq(uri);
      Arrive(id, req);
      var err := Lock(id, req, None, o, patience);
      if err.Some? {
        return Failed(err.value);
      }
      var snapshot := ReadSnapshot(id, req, None, o);
      answer := if snapshot.Err? then Failed(snapshot.error.code)
                else if snapshot.value.None? then Failed(NotFound)
                else Tagged(snapshot.value.value.etag);
      assert Explained(o, old(tick), tick, patience, answer);
      Unlock(id, req, answer, o);
    }

    /** Write and sync the temporary file, before any lock is taken. */
    method StageFile(id: nat, req: Request, o: Oracle) returns (staged: Option<Inode>)
      requires Valid() && OthersOnly(o, id) && id !in sys.calls && req.PutReq?
      modifies this
      ensures old(trace) <= trace && old(tick) <= tick && Valid()
      ensures At(id, req, if staged.Some? then Waiting(staged) else Returned(Failed(IO)))
      ensures staged.None? ==> Broke(o, old(tick), tick)
    {
      Pass(id, o);
      var created := !o.fails(tick);
      var file := |sys.disk|;
      assert id !in sys.calls;
      Do(Start(id, req, created));
      if !created {
        return None;
      }
      var err := CopyAll(id, req, file, o);
      return if err.Some? then None else Some(file);
    }

    method CopyAll(id: nat, req: Request, file: Inode, o: Oracle) returns (err: Option<Code>)
      requires Valid() && OthersOnly(o, id) && req.PutReq? && At(id, req, Staging(file, 0))
      modifies this
      ensures old(trace) <= trace && old(tick) <= tick && Valid()
      ensures At(id, req, if err.None? then Waiting(Some(file)) else Returned(Failed(IO)))
      ensures err.Some? ==> Broke(o, old(tick), tick)
    {
      hide Decide, Publish, Inv, Run;
      var written := 0;
      while written < |req.data|
        invariant Valid() && old(trace) <= trace && old(tick) <= tick
        invariant At(id, req, Staging(file, written)) && written <= |req.data|
        decreases |req.data| - written
      {
        Pass(id, o);
        if o.fails(tick) {
          FailNow(id, IO);
          return Some(IO);
        }
        StagedFileThere(sys, id);
        var n := Min(Max(1, o.chunk(tick)), |req.data| - written);
        Do(Move(id, Chunk(n)));
        written := written + n;
      }
      Pass(id, o);
      if o.fails(tick) {
        FailNow(id, IO);
        return Some(IO);
      }
      Do(Move(id, Proceed));
      return None;
    }

    method PutReader(id: nat, uri: string, data: Data, conds: Conditions, o: Oracle, patience: nat)
      returns (answer: Answer)
      requires Valid() && OthersOnly(o, id) && id !in sys.calls
      modifies this
      ensures old(trace) <= trace && old(tick) <= tick && Valid()
      ensures At(id, PutReq(uri, data, conds), Returned(answer)) && Explained(o, old(tick), tick, patience, answer)
      ensures answer == Failed(Cancelled) ==> Starved(old(|trace|), PutReq(uri, data, conds), patience)
    {
      hide Inv, Run, Next;
      var req := PutReq(uri, data, conds);
      var staged := StageFile(id, req, o);
      if staged.None? {
        return Failed(IO);
      }
      var err := Lock(id, req, staged, o, patience);
      if err.Some? {
        return Failed(err.value);
      }
      var snapshot := ReadSnapshot(id, req, staged, o);
      if snapshot.Err? {
        answer := Failed(snapshot.error.code);
      } else {
        var existing := if snapshot.value.Some? then Some(snapshot.value.value.etag) else None;
        var refused := ApplyConditionalPut(existing, conds);
        if refused.Some? {
          answer := Failed(refused.value);
        } else {
          answer := PublishFile(id, req, staged, o);
        }
      }
      assert Explained(o, old(tick), tick, patience, answer);
      Unlock(id, req, answer, o);
    }

    /** link or rename, then sync the directory. */
    method PublishFile(id: nat, req: Request, staged: Option<Inode>, o: Oracle) returns (answer: Answer)
      requires Valid() && OthersOnly(o, id) && req.PutReq? && staged.Some? && At(id, req, Cleared(staged))
      modifies this
      ensures old(trace) <= trace && old(tick) <= tick && Valid()
      ensures At(id, req, Leaving(answer))
      ensures answer != Failed(Cancelled) && (answer == Failed(IO) ==> Broke(o, old(tick), tick))
    {
      hide Next, Run, Inv;
      var err := NameFile(id, req, staged, o);
      if err.None? && WantsIfNoneMatchStar(req.conds) {
        err := RemoveStagedName(id, req, o);
      }
      if err.Some? {
        return Failed(err.value);
      }
      answer := SyncDirectory(id, req, o);
    }

    /** link or rename: the moment the put takes effect. */
    method NameFile(id: nat, req: Request, staged: Option<Inode>, o: Oracle) returns (err: Option<Code>)
      requires Valid() && OthersOnly(o, id) && req.PutReq? && staged.Some? && At(id, req, Cleared(staged))
      modifies this
      ensures old(trace) <= trace && old(tick) <= tick && Valid()
      ensures At(id, req, if err.Some? then Leaving(Failed(err.value))
                          else if WantsIfNoneMatchStar(req.conds) then Linked else Syncing)
      ensures err == None || err == Some(PreconditionFailed) || (err == Some(IO) && Broke(o, old(tick), tick))
    {
      hide Decide, Inv, Run;
      Pass(id, o);
      if o.fails(tick) {
        FailNow(id, IO);
        return Some(IO);
      }
      var taken := req.uri in sys.names;
      Do(Move(id, Proceed));
      return if WantsIfNoneMatchStar(req.conds) && taken then Some(PreconditionFailed) else None;
    }

    method RemoveStagedName(id: nat, req: Request, o: Oracle) returns (err: Option<Code>)
      requires Valid() && OthersOnly(o, id) && At(id, req, Linked)
      modifies this
      ensures old(trace) <= trace && old(tick) <= tick && Valid()
      ensures At(id, req, if err.None? then Syncing else Leaving(Failed(err.value)))
      ensures err.Some? ==> err.value == IO && Broke(o, old(tick), tick)
    {
      hide Inv, Run, Decide;
      Pass(id, o);
      if o.fails(tick) {
        FailNow(id, IO);
        return Some(IO);
      }
      Do(Move(id, Proceed));
      return None;
    }

    method SyncDirectory(id: nat, req: Request, o: Oracle) returns (answer: Answer)
      requires Valid() && OthersOnly(o, id) && Writes(req) && At(id, req, Syncing)
      modifies this
      ensures old(trace) <= trace && old(tick) <= tick && Valid()
      ensures At(id, req, Leaving(answer))
      ensures answer == Granted(req) || (answer == Failed(IO) && Broke(o, old(tick), tick))
    {
      hide Inv, Run, Decide;
      Pass(id, o);
      if o.fails(tick) {
        FailNow(id, IO);
        return Failed(IO);
      }
      Do(Move(id, Proceed));
      return if req.PutReq? then Tagged(Digest(req.data)) else Gone;
    }

    method Delete(id: nat, uri: string, conds: Conditions, o: Oracle, patience: nat) returns (answer: Answer)
      requires Valid() && OthersOnly(o, id) && id !in sys.calls
      modifies this
      ensures old(trace) <= trace && old(tick) <= tick && Valid()
      ensures At(id, DeleteReq(uri, conds), Returned(answer)) && Explained(o, old(tick), tick, patience, answer)
      ensures answer == Failed(Cancelled) ==> Starved(old(|trace|), DeleteReq(uri, conds), patience)
    {
      hide Inv, Run, Next;
      var req := DeleteReq(uri, conds);
      Arrive(id, req);
      var err := Lock(id, req, None, o, patience);
      if err.Some? {
        return Failed(err.value);
      }
      answer := RemoveIfMatching(id, req, o);
      assert Explained(o, old(tick), tick, patience, answer);
      Unlock(id, req, answer, o);
    }

    /** What a delete does under its lock. */
    method RemoveIfMatching(id: nat, req: Request, o: Oracle) returns (answer: Answer)
      requires Valid() && OthersOnly(o, id) && req.DeleteReq? && At(id, req, Holding(None))
      modifies this
      ensures old(trace) <= trace && old(tick) <= tick && Valid()
      ensures At(id, req, Leaving(answer))
      ensures answer != Failed(Cancelled) && (answer == Failed(IO) ==> Broke(o, old(tick), tick))
    {
      hide Inv, Run, Next;
      var snapshot := ReadSnapshot(id, req, None, o);
      if snapshot.Err? {
        return Failed(snapshot.error.code);
      }
      var existing := if snapshot.value.Some? then Some(snapshot.value.value.etag) else None;
      var refused := ApplyConditionalDelete(existing, req.conds);
      if refused.Some? {
        return Failed(refused.value);
      }
      if snapshot.value.None? {
        return Failed(NotFound);
      }
      answer := RemoveFile(id, req, o);
    }

    method RemoveFile(id: nat, req: Request, o: Oracle) returns (answer: Answer)
      requires Valid() && OthersOnly(o, id) && req.DeleteReq? && At(id, req, Cleared(None))
      modifies this
      ensures old(trace) <= trace && old(tick) <= tick && Valid()
      ensures At(id, req, Leaving(answer))
      ensures answer != Failed(Cancelled) && (answer == Failed(IO) ==> Broke(o, old(tick), tick))
    {
      hide Inv, Run, Decide;
      Pass(id, o);
      if o.fails(tick) {
        FailNow(id, IO);
        return Failed(IO);
      }
      RemovableIsThere(sys, id);
      Do(Move(id, Proceed));
      answer := SyncDirectory(id, req, o);
    }
  }
}
