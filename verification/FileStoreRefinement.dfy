/** Every interleaving of the file backend's steps is an interleaving of atomic requests. */
module FileStoreRefinement {
  import opened Common
  import opened Conditions
  import opened MockStorages
  import opened FileStores

  // ----- what one step may do to the others -----

  /** A step of call `id` writes only to the file that call owns, changes only the name it holds
      exclusively, gives names only to its own file, and touches no other call and no other lock. */
  ghost predicate Guarantee(s: System, s': System, id: nat) {
    var own := if id in s.calls then Owned(s.calls[id]) else None;
    && |s.disk| <= |s'.disk|
    && (forall f: nat :: f < |s.disk| && own != Some(f) ==> s'.disk[f] == s.disk[f])
    && (forall uri :: !(id in s.grants && s.grants[id] == Grant(uri, true)) ==>
          Lookup(s'.names, uri) == Lookup(s.names, uri))
    && (forall uri :: uri in s'.names && Lookup(s'.names, uri) != Lookup(s.names, uri) ==> own == Some(s'.names[uri]))
    && (forall j :: j != id ==> Lookup(s'.calls, j) == Lookup(s.calls, j))
    && (forall j :: j != id ==> Lookup(s'.grants, j) == Lookup(s.grants, j))
    && (s'.log == s.log || (|s'.log| == |s.log| + 1 && s'.log[..|s.log|] == s.log))
  }

  lemma NameStable(s: System, s': System, id: nat, j: nat, uri: string)
    requires ExclusionOK(s) && Guarantee(s, s', id)
    requires j != id && j in s.grants && s.grants[j].uri == uri
    ensures Lookup(s'.names, uri) == Lookup(s.names, uri)
  {
  }

  lemma FileStable(s: System, s': System, id: nat, j: nat, file: Inode)
    requires ExclusionOK(s) && Guarantee(s, s', id)
    requires j != id && j in s.calls && Owned(s.calls[j]) == Some(file) && Private(s, file)
    ensures Private(s', file) && s'.disk[file] == s.disk[file]
  {
    forall uri | uri in s'.names ensures s'.names[uri] != file {
      if Lookup(s'.names, uri) == Lookup(s.names, uri) {
        assert uri in s.names && s.names[uri] == s'.names[uri];
      }
    }
  }

  /** A named file is nobody's to write. */
  lemma NamedStable(s: System, s': System, id: nat, uri: string)
    requires Inv(s) && Guarantee(s, s', id) && uri in s.names
    ensures s'.disk[s.names[uri]] == s.disk[s.names[uri]]
  {
    if id in s.calls {
      assert CallOK(s, id, s.calls[id]);
    }
  }

  /** What held of another call still holds. */
  lemma OthersUndisturbed(s: System, s': System, id: nat, j: nat)
    requires Inv(s) && Guarantee(s, s', id)
    requires j != id && j in s.calls
    ensures j in s'.calls && s'.calls[j] == s.calls[j] && CallOK(s', j, s.calls[j])
  {
    var c := s.calls[j];
    assert CallOK(s, j, c);
    assert Lookup(s'.calls, j) == Lookup(s.calls, j);
    assert Lookup(s'.grants, j) == Lookup(s.grants, j);
    if Owned(c).Some? {
      FileStable(s, s', id, j, Owned(c).value);
    }
    if c.phase.Reading? || c.phase.Cleared? {
      NameStable(s, s', id, j, c.req.uri);
      if c.req.uri in s.names {
        NamedStable(s, s', id, c.req.uri);
      }
    }
  }

  // ----- what one step does to the abstract store -----

  /** Either the objects stay as they are, or the one request just logged was served atomically. */
  ghost predicate Refines(s: System, s': System)
    requires NamesOK(s) && NamesOK(s')
  {
    if s'.log == s.log then Contents(s') == Contents(s)
    else
      && |s'.log| == |s.log| + 1 && s'.log[..|s.log|] == s.log
      && Atomic(Contents(s), s'.log[|s.log|].req) == (Contents(s'), s'.log[|s.log|].answer)
  }

  ghost predicate StepOK(s: System, s': System, id: nat) {
    && Guarantee(s, s', id)
    && NamesOK(s) && NamesOK(s') && ExclusionOK(s') && LogOK(s')
    && (id in s'.calls ==> CallOK(s', id, s'.calls[id]))
    && Refines(s, s')
  }

  lemma InvAfter(s: System, s': System, id: nat)
    requires Inv(s) && StepOK(s, s', id)
    ensures Inv(s')
  {
    forall j | j in s'.calls ensures CallOK(s', j, s'.calls[j]) {
      if j != id {
        assert Lookup(s'.calls, j) == Lookup(s.calls, j);
        OthersUndisturbed(s, s', id, j);
      }
    }
  }

  // ----- what the steps have in common -----

  /** The invariant without the part about single calls. */
  ghost predicate Frame(s: System) {
    NamesOK(s) && ExclusionOK(s) && LogOK(s)
  }

  /** The locks after a step of `id`: as before, without its own, or with one that was available. */
  ghost predicate GrantsFollow(s: System, s': System, id: nat) {
    || s'.grants == s.grants
    || s'.grants == s.grants - {id}
    || exists g: Grant :: Available(s.grants, g.uri, g.exclusive) && id !in s.grants && s'.grants == s.grants[id := g]
  }

  lemma ExclusionKept(s: System, s': System, id: nat, c: Call)
    requires ExclusionOK(s) && id in s.calls && s'.calls == s.calls[id := c] && GrantsFollow(s, s', id)
    requires Owned(c) == None || Owned(c) == Owned(s.calls[id])
    ensures ExclusionOK(s')
  {
    assert forall j :: j in s'.grants && j != id ==> j in s.grants && s'.grants[j] == s.grants[j];
  }

  lemma LogKept(s: System, s': System, id: nat, phase: Phase)
    requires LogOK(s) && id in s.calls && s'.calls == s.calls[id := s.calls[id].(phase := phase)] && s'.log == s.log
    ensures LogOK(s')
  {
  }

  lemma LogGrows(s: System, s': System, id: nat, answer: Answer, phase: Phase)
    requires LogOK(s) && id in s.calls && s.calls[id].at.None?
    requires s'.calls == s.calls[id := s.calls[id].(phase := phase, at := Some(|s.log|))]
    requires s'.log == s.log + [Event(id, s.calls[id].req, answer)]
    ensures LogOK(s')
  {
    forall k | 0 <= k < |s'.log|
      ensures s'.log[k].id in s'.calls
              && s'.calls[s'.log[k].id].req == s'.log[k].req && s'.calls[s'.log[k].id].at == Some(k)
    {
      if k < |s.log| {
        assert s.log[k].id in s.calls && s.calls[s.log[k].id].at == Some(k);
      }
    }
  }

  lemma QuietGuarantee(s: System, s': System, id: nat)
    requires id in s.calls && GrantsFollow(s, s', id)
    requires s'.names == s.names && s'.disk == s.disk && s'.log == s.log
    requires id in s'.calls && s'.calls == s.calls[id := s'.calls[id]]
    ensures Guarantee(s, s', id)
  {
  }

  /** A step that changes the phase of its call and its lock, and nothing else. */
  lemma QuietStep(s: System, s': System, id: nat, phase: Phase)
    requires Frame(s) && id in s.calls
    requires s' == Goto(s, id, phase).(grants := s'.grants) && GrantsFollow(s, s', id)
    requires Owned(s.calls[id].(phase := phase)) == None || Owned(s.calls[id].(phase := phase)) == Owned(s.calls[id])
    requires CallOK(s', id, s'.calls[id])
    ensures StepOK(s, s', id)
  {
    hide CallOK, ExclusionOK, LogOK;
    ExclusionKept(s, s', id, s'.calls[id]);
    LogKept(s, s', id, phase);
    QuietGuarantee(s, s', id);
    hide Guarantee, GrantsFollow;
    assert Contents(s') == Contents(s);
  }

  lemma EffectGuarantee(s: System, names: map<string, Inode>, id: nat, answer: Answer, phase: Phase)
    requires id in s.calls && Guarantee(s, s.(names := names), id)
    ensures Guarantee(s, Effect(s.(names := names), id, answer, phase), id)
  {
  }

  /** A step at which its call takes effect, with the directory changed at most at the name it has locked. */
  lemma EffectiveStep(s: System, names: map<string, Inode>, id: nat, answer: Answer, phase: Phase)
    requires Frame(s) && id in s.calls && s.calls[id].at.None? && Owned(s.calls[id].(phase := phase)) == None
    requires var t := s.(names := names);
             var s' := Effect(t, id, answer, phase);
             && NamesOK(t)
             && Guarantee(s, t, id)
             && CallOK(s', id, s'.calls[id])
             && Atomic(Contents(s), s.calls[id].req) == (Contents(t), answer)
    ensures StepOK(s, Effect(s.(names := names), id, answer, phase), id)
  {
    hide CallOK, Atomic, ExclusionOK, LogOK;
    var t := s.(names := names);
    var s' := Effect(t, id, answer, phase);
    ExclusionKept(s, s', id, s'.calls[id]);
    LogGrows(s, s', id, answer, phase);
    EffectGuarantee(s, names, id, answer, phase);
    hide Guarantee;
    assert Contents(s') == Contents(t);
  }

  // ----- step by step -----

  /** A call that begins, with a new and empty file of its own or none. */
  lemma NewCall(s: System, s': System, id: nat, c: Call)
    requires Frame(s) && id !in s.calls && CallOK(s', id, c)
    requires forall j :: j in s.calls && Owned(s.calls[j]).Some? ==> Owned(s.calls[j]).value < |s.disk|
    requires s' == s.(calls := s.calls[id := c], disk := s'.disk) && (s'.disk == s.disk || s'.disk == s.disk + [""])
    requires c.began == |s.log| && c.at.None? && (Owned(c).None? || Owned(c).value == |s.disk|)
    ensures StepOK(s, s', id)
  {
    hide CallOK;
    NewExclusion(s, s', id, c);
    NewLog(s, s', id, c);
    hide ExclusionOK, LogOK;
    assert Contents(s') == Contents(s);
    assert Guarantee(s, s', id);
  }

  lemma NewExclusion(s: System, s': System, id: nat, c: Call)
    requires ExclusionOK(s) && id !in s.calls
    requires forall j :: j in s.calls && Owned(s.calls[j]).Some? ==> Owned(s.calls[j]).value < |s.disk|
    requires s'.calls == s.calls[id := c] && s'.grants == s.grants
    requires Owned(c).None? || Owned(c).value == |s.disk|
    ensures ExclusionOK(s')
  {
    forall i, j | i in s'.calls && j in s'.calls && i != j && Owned(s'.calls[i]).Some?
      ensures Owned(s'.calls[i]) != Owned(s'.calls[j])
    {
    }
  }

  lemma NewLog(s: System, s': System, id: nat, c: Call)
    requires LogOK(s) && id !in s.calls
    requires s'.calls == s.calls[id := c] && s'.log == s.log && c.began == |s.log| && c.at.None?
    ensures LogOK(s')
  {
    assert forall k :: 0 <= k < |s.log| ==> s.log[k].id != id;
  }

  lemma StartOK(s: System, id: nat, req: Request, created: bool)
    requires Inv(s) && id !in s.calls
    ensures StepOK(s, Next(s, Start(id, req, created)), id)
  {
    hide StepOK;
    forall j | j in s.calls ensures Owned(s.calls[j]).Some? ==> Owned(s.calls[j]).value < |s.disk| {
      assert CallOK(s, j, s.calls[j]);
    }
    StartedCallOK(s, id, req, created);
    hide CallOK, Frame;
    var s' := Next(s, Start(id, req, created));
    assert Frame(s) by { FrameOf(s); }
    NewCall(s, s', id, s'.calls[id]);
  }

  lemma FrameOf(s: System)
    requires Inv(s)
    ensures Frame(s)
  {
  }

  lemma StartedCallOK(s: System, id: nat, req: Request, created: bool)
    requires NamesOK(s) && id !in s.calls && id !in s.grants
    ensures var s' := Next(s, Start(id, req, created)); CallOK(s', id, s'.calls[id])
  {
  }

  lemma ChunkWritten(s: System, id: nat, file: Inode, written: nat, n: nat)
    requires Frame(s) && id in s.calls && CallOK(s, id, s.calls[id])
    requires s.calls[id].phase == Staging(file, written) && written + n <= |s.calls[id].req.data|
    ensures StepOK(s, MoveChunk(s, id, n), id)
  {
    var c, s' := s.calls[id], MoveChunk(s, id, n);
    assert c.req.data[..written] + c.req.data[written..written + n] == c.req.data[..written + n];
    assert s'.calls[id] == c.(phase := Staging(file, written + n));
    assert CallOK(s', id, s'.calls[id]);
    assert Contents(s') == Contents(s);
    assert Guarantee(s, s', id);
    hide CallOK, ExclusionOK, LogOK, Guarantee, Contents;
    ExclusionKept(s, s', id, s'.calls[id]);
    LogKept(s, s', id, Staging(file, written + n));
  }

  lemma ChunkRead(s: System, id: nat, n: nat)
    requires Frame(s) && id in s.calls && CallOK(s, id, s.calls[id])
    requires s.calls[id].phase.Reading? && |s.calls[id].phase.got| + n <= |s.disk[s.calls[id].phase.source]|
    ensures StepOK(s, MoveChunk(s, id, n), id)
  {
    var c, s' := s.calls[id], MoveChunk(s, id, n);
    var got, content := c.phase.got, s.disk[c.phase.source];
    assert content[..|got|] + content[|got|..|got| + n] == content[..|got| + n];
    QuietStep(s, s', id, s'.calls[id].phase);
  }

  lemma NoStep(s: System, id: nat)
    requires Inv(s)
    ensures StepOK(s, s, id)
  {
    assert Contents(s) == Contents(s);
  }

  lemma ChunkOK(s: System, id: nat, n: nat)
    requires Inv(s) && id in s.calls
    ensures StepOK(s, MoveChunk(s, id, n), id)
  {
    hide StepOK;
    var c := s.calls[id];
    assert CallOK(s, id, c);
    if c.phase.Staging? && c.phase.written + n <= |c.req.data| {
      ChunkWritten(s, id, c.phase.file, c.phase.written, n);
    } else if c.phase.Reading? && |c.phase.got| + n <= |s.disk[c.phase.source]| {
      ChunkRead(s, id, n);
    } else {
      NoStep(s, id);
    }
  }

  lemma StumbledCallOK(s: System, id: nat, code: Code)
    requires id in s.calls && CallOK(s, id, s.calls[id]) && Inconclusive(Failed(code))
    ensures var s' := Stumble(s, id, code); CallOK(s', id, s'.calls[id])
  {
  }

  lemma StumbleOK(s: System, id: nat, code: Code)
    requires Inv(s) && id in s.calls && Inconclusive(Failed(code))
    ensures StepOK(s, Stumble(s, id, code), id)
  {
    hide StepOK, ExclusionOK, LogOK;
    var s' := Stumble(s, id, code);
    assert CallOK(s, id, s.calls[id]);
    if s' == s {
      NoStep(s, id);
    } else {
      StumbledCallOK(s, id, code);
      hide CallOK;
      QuietStep(s, s', id, s'.calls[id].phase);
    }
  }

  lemma CrashOK(s: System, id: nat)
    requires Inv(s) && id in s.calls
    ensures StepOK(s, Next(s, Move(id, Crash)), id)
  {
    hide StepOK;
    var s' := Next(s, Move(id, Crash));
    if s' == s {
      NoStep(s, id);
    } else {
      QuietStep(s, s', id, Crashed);
    }
  }

  /** The call decides under its lock, on the object that is stored at that moment. */
  lemma DecideOK(s: System, id: nat, staged: Option<Inode>, current: Option<Object>)
    requires Frame(s) && id in s.calls && CallOK(s, id, s.calls[id])
    requires UnderLock(s.calls[id].phase) && Owned(s.calls[id]) == staged && s.calls[id].at.None?
    requires StagedOK(s, s.calls[id], staged)
    requires current == Lookup(Contents(s), s.calls[id].req.uri)
    ensures StepOK(s, Decide(s, id, staged, current), id)
  {
    hide StepOK, ExclusionOK, LogOK;
    var s' := Decide(s, id, staged, current);
    if s' == Goto(s, id, Cleared(staged)) {
      QuietStep(s, s', id, Cleared(staged));
    } else {
      assert |s'.log| == |s.log| + 1;
      var answer := s'.log[|s.log|].answer;
      DecisionIsAtomic(s, id, staged, current, answer);
      assert s.(names := s.names) == s;
      NoStepGuarantee(s, id);
      hide Guarantee, Decide;
      EffectiveStep(s, s.names, id, answer, Leaving(answer));
    }
  }

  lemma NoStepGuarantee(s: System, id: nat)
    ensures Guarantee(s, s, id)
  {
  }

  lemma DecisionIsAtomic(s: System, id: nat, staged: Option<Inode>, current: Option<Object>, answer: Answer)
    requires NamesOK(s) && id in s.calls && current == Lookup(Contents(s), s.calls[id].req.uri)
    requires var s' := Decide(s, id, staged, current); |s'.log| == |s.log| + 1 && s'.log[|s.log|].answer == answer
    ensures Decide(s, id, staged, current) == Effect(s, id, answer, Leaving(answer))
    ensures Atomic(Contents(s), s.calls[id].req) == (Contents(s), answer)
  {
  }

  lemma PublishPut(s: System, id: nat, file: Inode, phase: Phase)
    requires Frame(s) && id in s.calls && CallOK(s, id, s.calls[id])
    requires s.calls[id].req.PutReq? && s.calls[id].phase == Cleared(Some(file))
    requires phase == Linked || phase == Syncing
    ensures var c := s.calls[id];
            StepOK(s, Effect(s.(names := s.names[c.req.uri := file]), id, Granted(c.req), phase), id)
  {
    hide StepOK, ExclusionOK, LogOK;
    var c := s.calls[id];
    var names := s.names[c.req.uri := file];
    var t := s.(names := names);
    assert Contents(t) == Contents(s)[c.req.uri := Stored(c.req.data)];
    assert CurrentETag(Contents(s), c.req.uri) ==
             if c.req.uri in s.names then Some(Digest(s.disk[s.names[c.req.uri]])) else None;
    assert Atomic(Contents(s), c.req) == (Contents(t), Granted(c.req));
    EffectiveStep(s, names, id, Granted(c.req), phase);
  }

  lemma PublishDelete(s: System, id: nat)
    requires Frame(s) && id in s.calls && CallOK(s, id, s.calls[id])
    requires s.calls[id].req.DeleteReq? && s.calls[id].phase.Cleared?
    ensures StepOK(s, Effect(s.(names := s.names - {s.calls[id].req.uri}), id, Gone, Syncing), id)
  {
    hide StepOK, ExclusionOK, LogOK;
    var c := s.calls[id];
    var names := s.names - {c.req.uri};
    var t := s.(names := names);
    assert Contents(t) == Contents(s) - {c.req.uri};
    assert Atomic(Contents(s), c.req) == (Contents(t), Gone);
    EffectiveStep(s, names, id, Gone, Syncing);
  }

  lemma PublishOK(s: System, id: nat, staged: Option<Inode>)
    requires Inv(s) && id in s.calls && s.calls[id].phase == Cleared(staged)
    ensures StepOK(s, Publish(s, id, staged), id)
  {
    hide StepOK;
    var c := s.calls[id];
    assert CallOK(s, id, c);
    if c.req.PutReq? {
      PublishPut(s, id, staged.value, if WantsIfNoneMatchStar(c.req.conds) then Linked else Syncing);
    } else {
      PublishDelete(s, id);
    }
  }

  lemma AdvanceOK(s: System, id: nat)
    requires Inv(s) && id in s.calls
    ensures StepOK(s, Advance(s, id), id)
  {
    hide StepOK, LogOK, ExclusionOK;
    var c, s' := s.calls[id], Advance(s, id);
    assert CallOK(s, id, c);
    if c.phase.Holding? && c.req.uri !in s.names {
      DecideOK(s, id, c.phase.staged, None);
    } else if c.phase.Reading? && |c.phase.got| == |s.disk[c.phase.source]| {
      assert s.disk[c.phase.source][..|c.phase.got|] == s.disk[c.phase.source];
      DecideOK(s, id, c.phase.staged, Some(Stored(c.phase.got)));
    } else if c.phase.Cleared? {
      PublishOK(s, id, c.phase.staged);
    } else if s' == s {
      NoStep(s, id);
    } else {
      QuietStep(s, s', id, s'.calls[id].phase);
    }
  }

  /** Every step keeps the invariant and either leaves the stored objects alone or serves one request on
      them atomically. */
  lemma {:induction false} StepRefines(s: System, step: Step)
    requires Inv(s)
    ensures Inv(Next(s, step)) && Refines(s, Next(s, step))
    ensures Guarantee(s, Next(s, step), step.id)
  {
    match step
    case Start(id, req, created) =>
      if id in s.calls {
        NoStep(s, id);
      } else {
        StartOK(s, id, req, created);
        InvAfter(s, Next(s, step), id);
      }
    case Move(id, luck) =>
      if id in s.calls {
        match luck {
          case Proceed => AdvanceOK(s, id);
          case Chunk(n) => ChunkOK(s, id, n);
          case Fail(code) => if Inconclusive(Failed(code)) { StumbleOK(s, id, code); }
          case Crash => CrashOK(s, id);
        }
        if Next(s, step) != s {
          InvAfter(s, Next(s, step), id);
        } else {
          NoStep(s, id);
        }
      }
  }
}
